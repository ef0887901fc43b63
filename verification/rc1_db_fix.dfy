/**
 The migration that repairs the global database's root password after the
 rc1 release (migrations/container/20181203191120_service-command_rc1_db_fix.php).

 It is skipped on a first execution, when the database container runs and
 accepts its configured password, or when there is no compose file. Otherwise
 it restarts the database without grant tables, polls until it answers (at
 most 62 checks), resets the root password to the one in the compose file,
 and brings the regular container back.
 */
module Rc1DbFix {
  import opened Env
  import Php
  import opened Globals

  const HealthCheckCommand := "docker exec -it ee-global-db bash -c 'mysql -uroot -p$MYSQL_ROOT_PASSWORD -e\"exit\"'"
  const HealthScript := "mysql -uroot -p\"$MYSQL_ROOT_PASSWORD\" -e\"exit\""
  const PollCommand := "docker exec ee-global-db sh db_exec"

  /** The loop runs the check until it succeeds, but never more than this often. */
  const MaxHealthChecks := 62

  /**
   Whether `up()` skips: the constructor's first-execution skip can only be
   added to, never cleared.
   */
  function Skips(firstExecution: bool, dbRunning: bool, healthy: bool, composeExists: bool): (skip: bool)
    ensures skip <==> firstExecution || (dbRunning && healthy) || !composeExists
    ensures firstExecution ==> skip
  {
    var constructed := firstExecution;
    var afterProbe := if dbRunning && healthy then true else constructed;
    if !composeExists then true else afterProbe
  }

  /** The health check is issued only against a running container, skipped or not. */
  function Probe(dbRunning: bool): seq<Effect>
  {
    if dbRunning then [Exec(HealthCheckCommand)] else []
  }

  function ExtractCommand(rootDir: string): string
  {
    "cat " + ComposeFile(rootDir) + " | grep MYSQL_ROOT_PASSWORD | cut -d\"=\" -f2"
  }

  /** Remove the database and run a temporary one that skips grant checks. */
  function StartWithoutGrants(rootDir: string, tempDir: string): seq<Effect>
  {
    [ Launch(ExtractCommand(rootDir)),
      Chdir(ServiceDir(rootDir)),
      Exec("docker-compose rm --stop --force global-db"),
      Exec("docker-compose run -d --name=ee-global-db global-db --skip-grant-tables"),
      WriteFile(tempDir + "db_exec", HealthScript),
      Exec("docker cp " + tempDir + "db_exec ee-global-db:/db_exec") ]
  }

  const ResetPrefix := "FLUSH PRIVILEGES;\nALTER USER 'root'@'localhost' IDENTIFIED BY '"
  const ResetSuffix := "';"

  /** The SQL that resets the root password. */
  function ResetScript(password: string): string
  {
    ResetPrefix + password + ResetSuffix
  }

  /** Reads the password back out of a reset script. */
  function PasswordOf(script: string): string
    requires |script| >= |ResetPrefix| + |ResetSuffix|
  {
    script[|ResetPrefix|..|script| - |ResetSuffix|]
  }

  /** The reset script carries the password verbatim, so it can be read back. */
  lemma ResetScriptRoundTrip(password: string)
    ensures |ResetScript(password)| == |ResetPrefix| + |password| + |ResetSuffix|
    ensures ResetScript(password)[..|ResetPrefix|] == ResetPrefix
    ensures PasswordOf(ResetScript(password)) == password
  {
    var s := ResetScript(password);
    assert s[|ResetPrefix|..|s| - |ResetSuffix|] == password;
  }

  /** Reset the password, drop the temporary container, start the regular one. */
  function ResetAndRestart(password: string, tempDir: string): seq<Effect>
  {
    [ WriteFile(tempDir + "db_exec", ResetScript(password)),
      Exec("docker cp " + tempDir + "db_exec ee-global-db:/db_exec"),
      Exec("docker exec ee-global-db bash -c \"mysql < db_exec\""),
      Exec("docker rm -f ee-global-db"),
      Exec("docker-compose up -d global-db") ]
  }

  /**
   The number of checks the poll loop makes when the k-th check (from 0)
   answers `healthy(k)`: up to and including the first success, at most 62.
   */
  function ChecksUntilHealthy(healthy: nat -> bool, k: nat): nat
    requires k <= 61
    decreases 61 - k
  {
    if healthy(k) || k == 61 then k + 1 else ChecksUntilHealthy(healthy, k + 1)
  }

  /**
   The poll loop: `count++ > 60` compares before incrementing, so the check
   runs at most 62 times; the loop ends right after the first success.
   */
  method PollHealth(healthy: nat -> bool) returns (checks: nat, ok: bool)
    ensures 1 <= checks <= MaxHealthChecks
    ensures checks == ChecksUntilHealthy(healthy, 0)
    ensures ok == healthy(checks - 1)
    ensures forall k :: 0 <= k < checks - 1 ==> !healthy(k)
    ensures !ok ==> checks == MaxHealthChecks
  {
    var count := 0;
    var unhealthy := true;
    while unhealthy
      invariant 0 <= count <= 62
      invariant unhealthy ==> count <= 61
      invariant count == 0 ==> unhealthy
      invariant count > 0 ==> unhealthy == !healthy(count - 1)
      invariant forall k :: 0 <= k < count - 1 ==> !healthy(k)
      invariant count > 0 ==> ChecksUntilHealthy(healthy, 0) == ChecksUntilHealthy(healthy, count - 1)
      decreases 62 - count
    {
      unhealthy := !healthy(count);
      var before := count;
      count := count + 1;
      if before > 60 {
        break;
      }
    }
    checks, ok := count, !unhealthy;
  }

  function Repeat(e: Effect, n: nat): (r: seq<Effect>)
    ensures |r| == n && forall i :: 0 <= i < n ==> r[i] == e
  {
    seq(n, _ => e)
  }

  /**
   `up()`. `healthyNow` answers the initial health check, `poll(k)` the k-th
   check of the loop, and `extracted` is the stdout of the extraction pipeline.
   */
  method Up(firstExecution: bool, dbRunning: bool, healthyNow: bool, composeExists: bool,
            rootDir: string, tempDir: string, extracted: string, poll: nat -> bool)
    returns (effects: seq<Effect>, checks: nat)
    ensures Skips(firstExecution, dbRunning, healthyNow, composeExists) ==> effects == Probe(dbRunning)
    ensures !Skips(firstExecution, dbRunning, healthyNow, composeExists) ==>
              && 1 <= checks <= MaxHealthChecks
              && checks == ChecksUntilHealthy(poll, 0)
              && effects == Probe(dbRunning) + StartWithoutGrants(rootDir, tempDir)
                            + Repeat(Exec(PollCommand), checks)
                            + ResetAndRestart(Php.Trim(extracted), tempDir)
    // whatever the poll saw, a run that goes ahead ends with the reset and the regular container
    ensures !Skips(firstExecution, dbRunning, healthyNow, composeExists) ==>
              && |effects| >= 5
              && effects[|effects| - 5..] == ResetAndRestart(Php.Trim(extracted), tempDir)
              && effects[|effects| - 1] == Exec("docker-compose up -d global-db")
  {
    effects := Probe(dbRunning);
    checks := 0;
    if Skips(firstExecution, dbRunning, healthyNow, composeExists) {
      return;
    }
    var ok;
    checks, ok := PollHealth(poll);
    ResetHappensRegardless(Probe(dbRunning) + StartWithoutGrants(rootDir, tempDir), checks, Php.Trim(extracted), tempDir);
    effects := effects + StartWithoutGrants(rootDir, tempDir)
               + Repeat(Exec(PollCommand), checks)
               + ResetAndRestart(Php.Trim(extracted), tempDir);
  }

  /** Whatever precedes the polls and however many there were, the trace ends with the reset. */
  lemma ResetHappensRegardless(pre: seq<Effect>, checks: nat, password: string, tempDir: string)
    ensures var e := pre + Repeat(Exec(PollCommand), checks) + ResetAndRestart(password, tempDir);
      e[|e| - 5..] == ResetAndRestart(password, tempDir)
      && e[|e| - 1] == Exec("docker-compose up -d global-db")
  {
  }

  /** `down()`: remove the temporary container, start the regular one. */
  function Down(rootDir: string): (r: seq<Effect>)
    ensures |r| == 3 && r[0] == Chdir(ServiceDir(rootDir))
    // the same two commands `up()` ends with
    ensures forall password, tempDir :: r[1..] == ResetAndRestart(password, tempDir)[3..]
  {
    [Chdir(ServiceDir(rootDir)), Exec("docker rm -f ee-global-db"), Exec("docker-compose up -d global-db")]
  }
}
