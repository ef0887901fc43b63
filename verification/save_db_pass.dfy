/**
 The migration that records the global database password in the option store
 (migrations/container/20181204100620_service-command_save_global_db_pass.php).

 A first execution marks it skipped, but an existing compose file clears the
 skip again. When it runs, the password extracted from the compose file
 (by a shell pipeline whose output is an input here) is trimmed and stored.
 */
module SaveDbPass {
  import opened Env
  import Php
  import opened Globals

  function ExtractCommand(rootDir: string): string
  {
    "cat " + ComposeFile(rootDir) + " | grep MYSQL_ROOT_PASSWORD | cut -d\"=\" -f2"
  }

  /** Whether `up()` goes ahead: skipped only on a first execution with no compose file. */
  predicate Runs(firstExecution: bool, composeExists: bool)
  {
    var skip := firstExecution;
    var skip' := if composeExists then false else skip;
    !skip'
  }

  /** The value written under the global-db option, if any. */
  function Stored(effects: seq<Effect>): Option<string>
  {
    if |effects| == 0 then None
    else if effects[|effects| - 1].SetOption? then Some(effects[|effects| - 1].value)
    else Stored(effects[..|effects| - 1])
  }

  /** `up()`; `extracted` is the stdout of the extraction pipeline. */
  function Up(firstExecution: bool, composeExists: bool, rootDir: string, extracted: string): (r: seq<Effect>)
    ensures firstExecution && !composeExists ==> r == []
    ensures composeExists ==> r != []
    ensures !firstExecution ==> r != []
    ensures r != [] ==> r == [Launch(ExtractCommand(rootDir)), SetOption(GlobalDb, Php.Trim(extracted))]
  {
    if !Runs(firstExecution, composeExists) then []
    else [Launch(ExtractCommand(rootDir)), SetOption(GlobalDb, Php.Trim(extracted))]
  }

  /** When skipped nothing is stored; when it runs the trimmed extract is. */
  lemma StoresTrimmedPassword(firstExecution: bool, composeExists: bool, rootDir: string, extracted: string)
    ensures var r := Up(firstExecution, composeExists, rootDir, extracted);
      Stored(r) == if firstExecution && !composeExists then None else Some(Php.Trim(extracted))
  {
    var r := Up(firstExecution, composeExists, rootDir, extracted);
    if r != [] {
      assert r[|r| - 1] == SetOption(GlobalDb, Php.Trim(extracted));
    }
  }
}
