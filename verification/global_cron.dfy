/**
 The migration that moves cron into the global services
 (migrations/container/20230112183952_service-command_global_cron.php).

 Skipped on a first execution; otherwise five fixed steps: back up the
 compose file, regenerate it, remove the old `ee-cron-scheduler` container if
 it was running, back up the old cron configuration, and start the global
 cron service. Both backups are reverted by `restore_yml_file`, which also
 restarts the containers that were running.
 */
module GlobalCron {
  import opened Env
  import opened Steps
  import Php
  import opened Globals

  /** The cron service name; its old container was `ee-cron-scheduler`. */
  const CronScheduler := "cron-scheduler"

  const OldCronContainers := ["ee-" + CronScheduler]

  /** The service that replaces it, started and stopped by name. */
  const GlobalCronService := "global-cron"

  const StepNames := [
    "backup-global-docker-compose-file",
    "generate-global-docker-compose-file",
    "remove-global-ee-containers",
    "backup-old-cron-config-file",
    "start-renamed-containers"]

  function ComposeBackupPath(backupDir: string): string
  {
    backupDir + "/services/docker-compose.yml.bak"
  }

  function CronConfigPath(rootDir: string): string
  {
    rootDir + "/services/cron/config.ini"
  }

  function CronConfigBackupPath(backupDir: string): string
  {
    backupDir + "/services/cron/config.ini.bak"
  }

  /** A backup step whose reverse restores the file and restarts `running`. */
  function BackupStep(name: string, path: string, backup: string, running: seq<string>): Step
  {
    Step(name, BackupRestore, Some(CronRestoreYmlFile),
         Some([PathArg(path), PathArg(backup)]),
         Some([PathArg(backup), PathArg(path), ContainersArg(running)]))
  }

  function BuildSteps(rootDir: string, backupDir: string, running: seq<string>): (r: seq<Step>)
    ensures |r| == 5 && Names(r) == StepNames
    // both backups: reverse args are the forward paths swapped, then the running containers
    ensures forall i :: i in {0, 3} ==>
              r[i].forward == BackupRestore && r[i].reverse == Some(CronRestoreYmlFile)
              && r[i].args.Some? && |r[i].args.value| == 2
              && r[i].reverseArgs == Some([r[i].args.value[1], r[i].args.value[0], ContainersArg(running)])
    ensures r[0].args == Some([PathArg(ComposeFile(rootDir)), PathArg(ComposeBackupPath(backupDir))])
    ensures r[3].args == Some([PathArg(CronConfigPath(rootDir)), PathArg(CronConfigBackupPath(backupDir))])
    ensures r[1].forward == GenerateGlobalComposeYml && r[1].reverse.None? && r[1].args == Some([FilesystemArg])
    ensures r[2].forward == Action.RemoveOldCronContainers && r[2].reverse.None?
    ensures r[2].args == Some([ContainersArg(running)])
    ensures r[4].forward == StartGlobalCronContainer && r[4].reverse == Some(CronStopDefaultContainers)
    ensures r[4].args.None? && r[4].reverseArgs.None?
  {
    assert ComposeFile(rootDir) == rootDir + "/services/docker-compose.yml";
    [ BackupStep("backup-global-docker-compose-file", ComposeFile(rootDir), ComposeBackupPath(backupDir), running),
      Step("generate-global-docker-compose-file", GenerateGlobalComposeYml, None, Some([FilesystemArg]), None),
      Step("remove-global-ee-containers", Action.RemoveOldCronContainers, None, Some([ContainersArg(running)]), None),
      BackupStep("backup-old-cron-config-file", CronConfigPath(rootDir), CronConfigBackupPath(backupDir), running),
      Step("start-renamed-containers", StartGlobalCronContainer, Some(CronStopDefaultContainers), None, None) ]
  }

  /** `up()`: skipped on a first execution, nothing built; otherwise throws iff `execute()` fails. */
  function Up(firstExecution: bool, rootDir: string, backupDir: string, status: string -> string, executeOk: bool): (u: Up)
    ensures u.Skipped? <==> firstExecution
    ensures u.Submitted? ==> u.prelude == []
    ensures u.Submitted? ==> u.steps == BuildSteps(rootDir, backupDir, RunningContainers(OldCronContainers, status))
    ensures u.Submitted? ==> (u.threw <==> !executeOk)
  {
    if firstExecution then Skipped
    else Submit([], BuildSteps(rootDir, backupDir, RunningContainers(OldCronContainers, status)), executeOk)
  }

  /** The running list is `['ee-cron-scheduler']` when it runs and empty otherwise. */
  lemma RunningCronContainers(status: string -> string)
    ensures RunningContainers(OldCronContainers, status) ==
              if status(OldCronContainers[0]) == "running" then OldCronContainers else []
  {
  }

  /** What the loop appends for one container: `ltrim($c, 'ee-') . ' '`. */
  function ServicePiece(container: string): string
  {
    Php.LTrim(container, Php.EeChars) + " "
  }

  /** The services argument: one piece per container, in order. */
  function ServicesArg(containers: seq<string>): string
  {
    Php.ConcatMap(ServicePiece, containers)
  }

  /** Building the argument distributes over concatenation of container lists. */
  lemma ServicesArgAppend(a: seq<string>, b: seq<string>)
    ensures ServicesArg(a + b) == ServicesArg(a) + ServicesArg(b)
  {
    Php.ConcatMapAppend(ServicePiece, a, b);
  }

  /**
   One more container appends its `ltrim`-stripped name and one space to the
   argument built so far, which is what one pass of the loop does.
   */
  lemma ServicesArgSnoc(containers: seq<string>, c: string)
    ensures ServicesArg(containers + [c]) == ServicesArg(containers) + Php.LTrim(c, Php.EeChars) + " "
  {
    ServicesArgAppend(containers, [c]);
    assert [c][1..] == [];
    assert ServicesArg([c]) == ServicePiece(c) + ServicesArg([]);
  }

  /** Every listed container contributes exactly as many characters as its stripped name, plus one. */
  lemma {:induction false} ServicesArgLength(containers: seq<string>)
    ensures |ServicesArg(containers)| == |containers| + SumStrippedLengths(containers)
    decreases |containers|
  {
    if |containers| > 0 {
      ServicesArgLength(containers[1..]);
    }
  }

  function SumStrippedLengths(containers: seq<string>): nat
    decreases |containers|
  {
    if |containers| == 0 then 0
    else |Php.LTrim(containers[0], Php.EeChars)| + SumStrippedLengths(containers[1..])
  }

  function UpCommand(containers: seq<string>): string
  {
    "docker-compose up -d " + ServicesArg(containers)
  }

  /**
   `restore_yml_file`: restores the file; with no container to restart it
   stops there, otherwise it starts them all in one compose command.
   */
  function RestoreYmlFile(rootDir: string, source: string, destination: string,
                          containers: seq<string>, ok: string -> bool): (r: Run<()>)
    ensures |r.effects| >= 2 && r.effects[..2] == [Copy(source, destination), Chdir(ServiceDir(rootDir))]
    ensures |containers| == 0 ==> r == Done([Copy(source, destination), Chdir(ServiceDir(rootDir))], ())
    ensures |containers| > 0 ==> r.effects[2..] == [Exec(UpCommand(containers))]
    ensures r.Halted? <==> |containers| > 0 && !ok(UpCommand(containers))
  {
    var restore := [Copy(source, destination), Chdir(ServiceDir(rootDir))];
    if |containers| == 0 then Done(restore, ())
    else
      var cmd := UpCommand(containers);
      if ok(cmd) then Done(restore + [Exec(cmd)], ())
      else Halted(restore + [Exec(cmd)], ContainersNotStarted)
  }

  /** The reverse of either backup, for the cron container, restarts service `cron-scheduler`. */
  lemma RestoreRestartsCronScheduler()
    ensures UpCommand(OldCronContainers) == "docker-compose up -d " + CronScheduler + " "
  {
    Php.LTrimDropsEePrefix(CronScheduler);
    assert OldCronContainers[1..] == [];
    assert Php.ConcatMap(ServicePiece, OldCronContainers[1..]) == "";
    assert ServicesArg(OldCronContainers) == ServicePiece(OldCronContainers[0]) + "";
    assert ServicesArg(OldCronContainers) == CronScheduler + " " + "";
    assert CronScheduler + " " + "" == CronScheduler + " ";
  }

  function RemoveCommand(containers: seq<string>): string
  {
    "docker rm -f " + Php.Implode(" ", containers)
  }

  /**
   `remove_old_cron_containers`: no command when the joined list is blank
   (as PHP's `empty(trim(...))` sees it); throws only if an issued command fails.
   */
  function RemoveOldCronContainers(containers: seq<string>, ok: string -> bool): (r: Run<()>)
    ensures Php.Empty(Php.Trim(Php.Implode(" ", containers))) ==> r == Done([], ())
    ensures !Php.Empty(Php.Trim(Php.Implode(" ", containers))) ==> r.effects == [Exec(RemoveCommand(containers))]
    ensures r.Halted? <==> !Php.Empty(Php.Trim(Php.Implode(" ", containers))) && !ok(RemoveCommand(containers))
  {
    var joined := Php.Implode(" ", containers);
    if Php.Empty(Php.Trim(joined)) then Done([], ())
    else
      var cmd := RemoveCommand(containers);
      if ok(cmd) then Done([Exec(cmd)], ())
      else Halted([Exec(cmd)], ContainersNotRemoved)
  }

  /** Of the two lists `up()` can pass, only the non-empty one issues a removal. */
  lemma RemoveOnlyWhenCronWasRunning(ok: string -> bool)
    ensures RemoveOldCronContainers([], ok) == Done([], ())
    ensures RemoveOldCronContainers(OldCronContainers, ok).effects == [Exec("docker rm -f " + OldCronContainers[0])]
  {
    var s := OldCronContainers[0];
    assert Php.Implode(" ", OldCronContainers) == s;
    assert s[0] == 'e' && s[|s| - 1] == 'r';
    Php.TrimUnchanged(s);
    assert |s| > 1;
    assert !Php.Empty(Php.Trim(Php.Implode(" ", OldCronContainers)));
    assert RemoveCommand(OldCronContainers) == "docker rm -f " + s;
  }

  /** `stop_default_containers`, the reverse of starting the global cron service. */
  function StopDefaultContainers(rootDir: string, ok: string -> bool): (r: Run<()>)
    ensures r.effects == [Chdir(ServiceDir(rootDir)), Exec("docker-compose stop " + GlobalCronService)]
    ensures r.Halted? <==> !ok("docker-compose stop " + GlobalCronService)
  {
    var cmd := "docker-compose stop " + GlobalCronService;
    var e := [Chdir(ServiceDir(rootDir)), Exec(cmd)];
    if ok(cmd) then Done(e, ()) else Halted(e, DefaultContainersNotRemoved)
  }

  /** `start_global_service_container`: refresh the cron configuration, then start global-cron. */
  function StartGlobalServiceContainer(): (r: seq<Effect>)
    // the cron configuration is refreshed before the service is started, and the start is the last effect
    ensures |r| == 2 && r[0] == UpdateCronConfig && r[|r| - 1] == GlobalServiceUp(GlobalCronService)
  {
    [UpdateCronConfig, GlobalServiceUp(GlobalCronService)]
  }

  /**
   The step that starts the global cron service is undone by a stop of that
   same service, issued in the service directory: the stop names exactly the
   service the start brings up, and only that one.
   */
  lemma StopUndoesStart(rootDir: string, backupDir: string, running: seq<string>, ok: string -> bool)
    ensures var step := BuildSteps(rootDir, backupDir, running)[4];
      step.forward == StartGlobalCronContainer && step.reverse == Some(CronStopDefaultContainers)
    ensures var started := StartGlobalServiceContainer()[|StartGlobalServiceContainer()| - 1];
      var stop := StopDefaultContainers(rootDir, ok).effects;
      started.GlobalServiceUp? && stop[0] == Chdir(ServiceDir(rootDir))
      && stop[|stop| - 1] == Exec("docker-compose stop " + started.service)
  {
  }
}
