/**
 The migration that regenerates the global compose file once the sysctl
 settings were dropped from it
 (migrations/container/20201103184813_service-command_remove_sysctl.php).
 Same pattern as the refresh-compose migration, without ensuring the
 networks first and with the newrelic daemon in the whitelist.
 */
module RemoveSysctl {
  import opened Env
  import opened Globals
  import opened Snapshot
  import Php

  const Whitelist := ["nginx-proxy", "db", "redis", "newrelic-daemon"]

  /** `up()`: skipped on a first execution; `down()` does nothing. */
  function Up(firstExecution: bool, rootDir: string, ps: string -> string, composeCmd: string): (r: seq<Effect>)
    ensures firstExecution ==> r == []
    ensures !firstExecution ==>
              && |r| >= 6
              && r[0] == Chdir(ServiceDir(rootDir))
              && r[1..5] == SnapshotLaunches(Whitelist)
              && r[5] == GenerateCompose
              && r[6..] == RestartEffects(TakeSnapshot(Whitelist, ps), composeCmd)
  {
    if firstExecution then []
    else
      var prefix := [Chdir(ServiceDir(rootDir))];
      LayoutAfter(prefix, Whitelist, ps, [], composeCmd);
      prefix + SnapshotRegenerateRestart(Whitelist, ps, [], composeCmd)
  }

  /** A global service is restarted iff it is one of the four and was running. */
  lemma RestartsExactlyWhatRan(rootDir: string, ps: string -> string, composeCmd: string, service: string)
    ensures (Exec(RestartCommand(composeCmd, service)) in Up(false, rootDir, ps, composeCmd))
              <==> service in Whitelist && !Php.Empty(ps(PsCommand(service)))
  {
    RestartsExactlyRunning([Chdir(ServiceDir(rootDir))], Whitelist, ps, [], composeCmd, service);
  }
}
