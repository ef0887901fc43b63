/**
 The migration that regenerates the global compose file and restarts the
 global services that were running
 (migrations/container/20211611191554_service-command_refresh_compose.php).
 */
module RefreshCompose {
  import opened Env
  import opened Globals
  import opened Snapshot
  import Php

  const Whitelist := ["nginx-proxy", "db", "redis"]

  /**
   `up()`; `ps` answers each `docker-compose ps -q`, `composeCmd` is the
   compose command. Skipped on a first execution; otherwise the networks are
   ensured, the running state of the three services is recorded, the file is
   regenerated, and the recorded services are started again. `down()` does
   nothing.
   */
  function Up(firstExecution: bool, rootDir: string, ps: string -> string, composeCmd: string): (r: seq<Effect>)
    ensures firstExecution ==> r == []
    ensures !firstExecution ==>
              && |r| >= 6
              && r[..2] == [EnsureNetworks, Chdir(ServiceDir(rootDir))]
              && r[2..5] == SnapshotLaunches(Whitelist)
              && r[5] == GenerateCompose
              && r[6..] == RestartEffects(TakeSnapshot(Whitelist, ps), composeCmd)
  {
    if firstExecution then []
    else
      var prefix := [EnsureNetworks, Chdir(ServiceDir(rootDir))];
      LayoutAfter(prefix, Whitelist, ps, [], composeCmd);
      prefix + SnapshotRegenerateRestart(Whitelist, ps, [], composeCmd)
  }

  /** A global service is restarted iff it is one of the three and was running. */
  lemma RestartsExactlyWhatRan(rootDir: string, ps: string -> string, composeCmd: string, service: string)
    ensures (Exec(RestartCommand(composeCmd, service)) in Up(false, rootDir, ps, composeCmd))
              <==> service in Whitelist && !Php.Empty(ps(PsCommand(service)))
  {
    var prefix := [EnsureNetworks, Chdir(ServiceDir(rootDir))];
    RestartsExactlyRunning(prefix, Whitelist, ps, [], composeCmd, service);
  }
}
