/**
 The migration that first added the global cron service
 (migrations/container/20190110064350_service-command_add_cron_global_service.php).

 Skipped on a first execution. Otherwise the compose file is backed up and
 regenerated; if the old `ee-cron-scheduler` container was running, the
 global cron service is started and then the old container removed.
 */
module AddCronService {
  import opened Env
  import opened Steps
  import opened Globals

  /** The container of the cron scheduler this migration replaces. */
  const OldCronContainer := "ee-cron-scheduler"

  function BackupPath(backupDir: string): string
  {
    backupDir + "/services/docker-compose.yml.backup"
  }

  /** The step list; `cronService` is EE_CRON_SERVICE. */
  function BuildSteps(rootDir: string, backupDir: string, cronRunning: bool, cronService: string): (r: seq<Step>)
    ensures |r| == if cronRunning then 4 else 2
    ensures Names(r[..2]) == ["backup-global-docker-compose-file", "generate-global-docker-compose-file"]
    ensures r[1].forward == GenerateGlobalComposeYml
    // the backup is reverted by the same copy with its paths swapped
    ensures r[0].forward == BackupRestore && r[0].reverse == Some(BackupRestore)
    ensures r[0].args == Some([PathArg(ComposeFile(rootDir)), PathArg(BackupPath(backupDir))])
    ensures r[0].reverseArgs == Some([r[0].args.value[1], r[0].args.value[0]])
    // the global cron service is enabled before the old container is removed
    ensures cronRunning ==> r[2].name == "enable-global-cron-service" && r[2].forward == GlobalServiceUpAction
                            && r[2].args == Some([ServiceArg(cronService)])
    ensures cronRunning ==> r[3].name == "remove-ee-cron-scheduler-container" && r[3].forward == Action.RemoveOldCronContainer
    ensures forall i :: 1 <= i < |r| ==> r[i].reverse.None?
  {
    var file := ComposeFile(rootDir);
    var backup := BackupPath(backupDir);
    var base := [
      Step("backup-global-docker-compose-file", BackupRestore, Some(BackupRestore),
           Some([PathArg(file), PathArg(backup)]), Some([PathArg(backup), PathArg(file)])),
      Step("generate-global-docker-compose-file", GenerateGlobalComposeYml, None, Some([FilesystemArg]), None)];
    if cronRunning then
      base + [
        Step("enable-global-cron-service", GlobalServiceUpAction, None, Some([ServiceArg(cronService)]), Some([])),
        Step("remove-ee-cron-scheduler-container", Action.RemoveOldCronContainer, None, Some([]), Some([]))]
    else base
  }

  /** `up()`: nothing is built on a first execution; otherwise throws iff `execute()` fails. */
  function Up(firstExecution: bool, rootDir: string, backupDir: string, status: string -> string,
              cronService: string, executeOk: bool): (u: Up)
    ensures u.Skipped? <==> firstExecution
    ensures u.Submitted? ==> u.prelude == []
    ensures u.Submitted? ==> |u.steps| == if status(OldCronContainer) == "running" then 4 else 2
    ensures u.Submitted? ==> u.steps == BuildSteps(rootDir, backupDir, status(OldCronContainer) == "running", cronService)
    ensures u.Submitted? ==> (u.threw <==> !executeOk)
  {
    if firstExecution then Skipped
    else Submit([], BuildSteps(rootDir, backupDir, status(OldCronContainer) == "running", cronService), executeOk)
  }

  /** `remove_old_cron_container`: throws iff the removal command fails. */
  function RemoveOldCronContainer(ok: string -> bool): (r: Run<()>)
    ensures r.effects == [Exec("docker rm -f " + OldCronContainer)]
    ensures r.Halted? <==> !ok("docker rm -f " + OldCronContainer)
  {
    var cmd := "docker rm -f " + OldCronContainer;
    if ok(cmd) then Done([Exec(cmd)], ())
    else Halted([Exec(cmd)], CronSchedulerNotRemoved)
  }

  /**
   The removal step is scheduled exactly when the container whose status
   `up()` examined was running, and the removal acts on that container.
   */
  lemma RemovesTheContainerFoundRunning(rootDir: string, backupDir: string, status: string -> string,
                                        cronService: string, executeOk: bool, ok: string -> bool)
    ensures var steps := Up(false, rootDir, backupDir, status, cronService, executeOk).steps;
      (exists i :: 0 <= i < |steps| && steps[i].forward == Action.RemoveOldCronContainer)
      <==> status(OldCronContainer) == "running"
    ensures RemoveOldCronContainer(ok).effects == [Exec("docker rm -f " + OldCronContainer)]
  {
    var steps := Up(false, rootDir, backupDir, status, cronService, executeOk).steps;
    if status(OldCronContainer) == "running" {
      assert steps[3].forward == Action.RemoveOldCronContainer;
    } else {
      assert |steps| == 2;
      assert forall i :: 0 <= i < |steps| ==> steps[i].forward != Action.RemoveOldCronContainer;
    }
  }
}
