/**
 The migration that renames the global service containers
 (migrations/container/20181225063950_service-command_change_global_service_container_names.php).

 Its `up()` is skipped on a first execution. Otherwise it builds one
 cache-host update step per site using the global cache, then six fixed
 steps: back up the compose file, regenerate it, start support containers,
 remove the old `ee-` containers, start the renamed ones, and remove the
 support containers.
 */
module ChangeContainerNames {
  import opened Env
  import opened Steps
  import Php
  import opened Globals
  import ServiceUtils

  /**
   The containers of the old naming scheme, in the order they are examined:
   `ee-global-nginx-proxy`, `ee-global-redis`, `ee-global-db`, that is, the
   service names with an "ee-" in front.
   */
  const OldContainers := ["ee-" + GlobalNginxProxy, "ee-" + GlobalRedis, "ee-" + GlobalDb]

  /** The names of the six steps that follow the cache-host updates. */
  const FixedStepNames := [
    "backup-global-docker-compose-file",
    "generate-global-docker-compose-file",
    "create-support-global-containers",
    "remove-global-ee-containers",
    "start-renamed-containers",
    "remove-support-containers"]

  /** The steps that declare a reverse action. */
  const RevertableStepNames := {
    "backup-global-docker-compose-file",
    "create-support-global-containers",
    "start-renamed-containers"}

  function BackupPath(backupDir: string): string
  {
    backupDir + "/services/docker-compose.yml.backup"
  }

  /** `Site::where('cache_host', 'global-redis')`. */
  function CacheSites(sites: seq<Site>): (r: seq<Site>)
    ensures forall s :: s in r <==> s in sites && s.cacheHost == GlobalRedis
    ensures IsSubsequence(r, sites)
    decreases |sites|
  {
    if |sites| == 0 then []
    else if sites[0].cacheHost == GlobalRedis then [sites[0]] + CacheSites(sites[1..])
    else CacheSites(sites[1..])
  }

  function CacheHostStep(site: Site): Step
  {
    Step("update-cache-host-" + site.url, Action.UpdateCacheHost, None, Some([SiteArg(site)]), None)
  }

  function CacheHostSteps(cacheSites: seq<Site>): (r: seq<Step>)
    ensures |r| == |cacheSites|
    ensures forall i :: 0 <= i < |r| ==> r[i] == CacheHostStep(cacheSites[i])
  {
    seq(|cacheSites|, i requires 0 <= i < |cacheSites| => CacheHostStep(cacheSites[i]))
  }

  function FixedSteps(rootDir: string, backupDir: string, running: seq<string>): (r: seq<Step>)
    ensures |r| == 6 && Names(r) == FixedStepNames
    ensures forall i :: 0 <= i < 6 ==> (r[i].reverse.Some? <==> r[i].name in RevertableStepNames)
    // the backup is undone by restoring the file; the support containers and
    // the renamed containers are undone by removing them again
    ensures r[0].forward == BackupRestore && r[0].reverse == Some(RenamesRestoreYmlFile)
    ensures r[1].forward == GenerateGlobalComposeYml
    ensures r[2].forward == EnableSupportContainers && r[2].reverse == Some(DisableSupportContainers)
    ensures r[3].forward == Action.RemoveGlobalEeContainers
    ensures r[4].forward == Action.StartGlobalServiceContainers && r[4].reverse == Some(RenamesStopDefaultContainers)
    ensures r[5].forward == DisableSupportContainers
  {
    var file := ComposeFile(rootDir);
    var backup := BackupPath(backupDir);
    [ Step("backup-global-docker-compose-file", BackupRestore, Some(RenamesRestoreYmlFile),
           Some([PathArg(file), PathArg(backup)]), Some([PathArg(backup), PathArg(file)])),
      Step("generate-global-docker-compose-file", GenerateGlobalComposeYml, None, Some([FilesystemArg]), None),
      Step("create-support-global-containers", EnableSupportContainers, Some(DisableSupportContainers), None, None),
      Step("remove-global-ee-containers", Action.RemoveGlobalEeContainers, None, Some([ContainersArg(running)]), None),
      Step("start-renamed-containers", Action.StartGlobalServiceContainers, Some(RenamesStopDefaultContainers),
           Some([ContainersArg(running)]), None),
      Step("remove-support-containers", DisableSupportContainers, None, None, None) ]
  }

  /** The step list `up()` hands to the processor. */
  function BuildSteps(rootDir: string, backupDir: string, cacheSites: seq<Site>, running: seq<string>): (r: seq<Step>)
    ensures |r| == |cacheSites| + 6
    // one cache-host update per cache site, in site order, none of them revertable
    ensures forall i :: 0 <= i < |cacheSites| ==>
              r[i].name == "update-cache-host-" + cacheSites[i].url && r[i].forward == Action.UpdateCacheHost
              && r[i].reverse.None? && r[i].args == Some([SiteArg(cacheSites[i])])
    // then the six fixed steps
    ensures Names(r[|cacheSites|..]) == FixedStepNames
    // only backup, create-support and start-renamed declare a reverse action
    ensures forall i :: 0 <= i < |r| ==> (r[i].reverse.Some? <==> r[i].name in RevertableStepNames)
    // the backup's restore gets the backup's paths swapped
    ensures var b := r[|cacheSites|];
      b.args == Some([PathArg(ComposeFile(rootDir)), PathArg(BackupPath(backupDir))])
      && b.reverseArgs == Some([b.args.value[1], b.args.value[0]])
    // removal and restart act on the containers found running
    ensures r[|cacheSites| + 3].args == Some([ContainersArg(running)])
    ensures r[|cacheSites| + 4].args == Some([ContainersArg(running)])
    // the actions of the six fixed steps and the reverses they declare
    ensures r[|cacheSites|].forward == BackupRestore && r[|cacheSites|].reverse == Some(RenamesRestoreYmlFile)
    ensures r[|cacheSites| + 1].forward == GenerateGlobalComposeYml
    ensures r[|cacheSites| + 2].forward == EnableSupportContainers
    ensures r[|cacheSites| + 2].reverse == Some(DisableSupportContainers)
    ensures r[|cacheSites| + 3].forward == Action.RemoveGlobalEeContainers
    ensures r[|cacheSites| + 4].forward == Action.StartGlobalServiceContainers
    ensures r[|cacheSites| + 4].reverse == Some(RenamesStopDefaultContainers)
    ensures r[|cacheSites| + 5].forward == DisableSupportContainers
  {
    var updates := CacheHostSteps(cacheSites);
    var fixed := FixedSteps(rootDir, backupDir, running);
    AppendedReverses(updates, cacheSites, fixed);
    assert (updates + fixed)[|cacheSites|..] == fixed;
    updates + fixed
  }

  /** Putting the cache-host updates in front keeps "revertable iff named so" true of the whole list. */
  lemma AppendedReverses(updates: seq<Step>, cacheSites: seq<Site>, fixed: seq<Step>)
    requires updates == CacheHostSteps(cacheSites)
    requires forall i :: 0 <= i < |fixed| ==> (fixed[i].reverse.Some? <==> fixed[i].name in RevertableStepNames)
    ensures forall i :: 0 <= i < |updates + fixed| ==>
              ((updates + fixed)[i].reverse.Some? <==> (updates + fixed)[i].name in RevertableStepNames)
  {
    var r := updates + fixed;
    forall i | 0 <= i < |r|
      ensures r[i].reverse.Some? <==> r[i].name in RevertableStepNames
    {
      if i < |updates| {
        assert r[i] == CacheHostStep(cacheSites[i]);
        UpdateStepNotRevertable(cacheSites[i].url);
      } else {
        assert r[i] == fixed[i - |updates|];
      }
    }
  }

  /** No cache-host update carries the name of a revertable step. */
  lemma UpdateStepNotRevertable(url: string)
    ensures "update-cache-host-" + url !in RevertableStepNames
  {
    var name := "update-cache-host-" + url;
    assert name[0] == 'u';
  }

  /**
   `up()`: skipped on a first execution; otherwise submits the step list and
   throws exactly when the processor reports failure.
   */
  function Up(firstExecution: bool, rootDir: string, backupDir: string, sites: seq<Site>,
              status: string -> string, executeOk: bool): (u: Up)
    ensures u.Skipped? <==> firstExecution
    ensures u.Submitted? ==> u.prelude == [] && u.steps == BuildSteps(rootDir, backupDir, CacheSites(sites), RunningContainers(OldContainers, status))
    ensures u.Submitted? ==> (u.threw <==> !executeOk)
  {
    if firstExecution then Skipped
    else Submit([], BuildSteps(rootDir, backupDir, CacheSites(sites), RunningContainers(OldContainers, status)), executeOk)
  }

  /** The containers `up()` records as running are a sublist of the three old ones. */
  lemma RunningOldContainers(status: string -> string)
    ensures forall c :: c in RunningContainers(OldContainers, status) <==> c in OldContainers && status(c) == "running"
    ensures IsSubsequence(RunningContainers(OldContainers, status), OldContainers)
    ensures |RunningContainers(OldContainers, status)| <= 3
  {
    var r := RunningContainers(OldContainers, status);
    SubsequenceLength(r, OldContainers);
  }

  lemma {:induction false} SubsequenceLength<T>(sub: seq<T>, s: seq<T>)
    requires IsSubsequence(sub, s)
    ensures |sub| <= |s|
    decreases |s|
  {
    if |sub| > 0 {
      if sub[0] == s[0] {
        SubsequenceLength(sub[1..], s[1..]);
      } else {
        SubsequenceLength(sub, s[1..]);
      }
    }
  }

  /** `restore_yml_file`: restores the compose file and starts it all again. */
  function RestoreYmlFile(rootDir: string, source: string, destination: string): (r: seq<Effect>)
    ensures |r| == 3 && r[0] == Copy(source, destination)
    ensures r[2] == Exec("docker-compose up -d")
  {
    [Copy(source, destination), Chdir(ServiceDir(rootDir)), Exec("docker-compose up -d")]
  }

  /**
   The backup step's reverse, given the reverse arguments `up()` declares,
   copies the backup back over the compose file the forward copy saved, and
   restarts the services from the directory that holds it.
   */
  lemma RestoreUndoesBackup(rootDir: string, backupDir: string, cacheSites: seq<Site>, running: seq<string>)
    ensures var b := BuildSteps(rootDir, backupDir, cacheSites, running)[|cacheSites|];
      var restore := RestoreYmlFile(rootDir, b.reverseArgs.value[0].path, b.reverseArgs.value[1].path);
      b.forward == BackupRestore && b.reverse == Some(RenamesRestoreYmlFile)
      && restore[0] == Copy(b.args.value[1].path, b.args.value[0].path)
      && restore[0] == Copy(BackupPath(backupDir), ComposeFile(rootDir))
      && ComposeFile(rootDir) == ServiceDir(rootDir) + "/docker-compose.yml"
      && restore[1] == Chdir(ServiceDir(rootDir))
  {
  }

  function RemoveCommand(containers: seq<string>): string
  {
    "docker rm -f " + Php.Implode(" ", containers)
  }

  /**
   `remove_global_ee_containers` as written: the removal command is issued
   even when no container is listed.
   */
  function RemoveGlobalEeContainersAsWritten(containers: seq<string>, ok: string -> bool): (r: Run<()>)
    ensures r.effects == [Exec(RemoveCommand(containers))]
    ensures r.Halted? <==> !ok(RemoveCommand(containers))
  {
    var cmd := RemoveCommand(containers);
    if ok(cmd) then Done([Exec(cmd)], ())
    else Halted([Exec(cmd)], ContainersNotRemoved)
  }

  /**
   When none of the old containers is running, the step still issues
   `docker rm -f ` with no container argument, which the engine rejects, so
   the step fails and `up()` throws.
   */
  lemma RemoveWithNothingRunning(ok: string -> bool)
    requires !ok("docker rm -f ")
    ensures RemoveGlobalEeContainersAsWritten(RunningContainers(OldContainers, _ => "exited"), ok).effects == [Exec("docker rm -f ")]
    ensures RemoveGlobalEeContainersAsWritten(RunningContainers(OldContainers, _ => "exited"), ok).Halted?
  {
    var exited: string -> string := _ => "exited";
    var none := RunningContainers(OldContainers, exited);
    assert exited(OldContainers[0]) != "running" by { assert |"exited"| != |"running"|; }
    assert RunningContainers(OldContainers[1..], exited) == RunningContainers(OldContainers[2..], exited);
    assert RunningContainers(OldContainers[2..], exited) == RunningContainers(OldContainers[3..], exited);
    assert OldContainers[3..] == [];
    assert none == [];
    assert RemoveCommand([]) == "docker rm -f ";
  }

  /**
   `remove_global_ee_containers` with the empty-list guard the later cron
   migration uses: nothing is issued for an empty list, and an issued command
   names every listed container.
   */
  function RemoveGlobalEeContainers(containers: seq<string>, ok: string -> bool): (r: Run<()>)
    ensures |containers| == 0 ==> r == Done([], ())
    ensures |containers| > 0 ==> r.effects == [Exec(RemoveCommand(containers))]
    ensures |containers| > 0 ==> (r.Halted? <==> !ok(RemoveCommand(containers)))
  {
    if |containers| == 0 then Done([], ())
    else RemoveGlobalEeContainersAsWritten(containers, ok)
  }

  /** `stop_default_containers`, the reverse of starting the renamed containers. */
  function StopDefaultContainers(rootDir: string, ok: string -> bool): (r: Run<()>)
    ensures r.Halted? <==> !ok("docker-compose stop && docker-compose rm -f")
  {
    var cmd := "docker-compose stop && docker-compose rm -f";
    var e := [Chdir(ServiceDir(rootDir)), Exec(cmd)];
    if ok(cmd) then Done(e, ()) else Halted(e, DefaultContainersNotRemoved)
  }

  /**
   The start step is undone by `stop_default_containers`, whose compose
   command names no service and so acts on every service of the compose
   file in the service directory (see `StartedServicesAreComposed` for why
   that covers every service the start brings up).
   */
  lemma StopCoversStartedServices(rootDir: string, backupDir: string, cacheSites: seq<Site>,
                                  running: seq<string>, ok: string -> bool)
    ensures var step := BuildSteps(rootDir, backupDir, cacheSites, running)[|cacheSites| + 4];
      step.forward == Action.StartGlobalServiceContainers && step.reverse == Some(RenamesStopDefaultContainers)
      && step.reverseArgs.None? && step.args == Some([ContainersArg(running)])
    ensures var stop := StopDefaultContainers(rootDir, ok).effects;
      |stop| == 2 && stop[0] == Chdir(ServiceDir(rootDir))
      && stop[1] == Exec("docker-compose stop && docker-compose rm -f")
  {
  }

  /** Every service the start step brings up is one the regenerated compose file declares. */
  lemma StartedServicesAreComposed(status: string -> string, h: ServiceUtils.Host, stored: Option<string>,
                                   random: string)
    ensures var starts := StartGlobalServiceContainers(RunningContainers(OldContainers, status));
      var services := ServiceUtils.GenerateGlobalComposeYml(h, stored, random).compose.services;
      forall i :: 0 <= i < |starts| ==>
        exists j :: 0 <= j < |services| && services[j].name == starts[i].service
  {
    var starts := StartGlobalServiceContainers(RunningContainers(OldContainers, status));
    var services := ServiceUtils.GenerateGlobalComposeYml(h, stored, random).compose.services;
    StartsRenamedServices(status);
    forall i | 0 <= i < |starts|
      ensures exists j :: 0 <= j < |services| && services[j].name == starts[i].service
    {
      var running := RunningContainers(OldContainers, status);
      assert |running[i]| > 3 && starts[i] == GlobalServiceUp(running[i][3..]);
      var name := starts[i].service;
      if name == GlobalNginxProxy {
        assert services[0].name == name;
      } else if name == GlobalDb {
        assert services[1].name == name;
      } else {
        assert services[2].name == name;
      }
    }
  }

  /** `start_global_service_containers`: one service start per container, names stripped by `ltrim`. */
  function StartGlobalServiceContainers(containers: seq<string>): (r: seq<Effect>)
    ensures |r| == |containers|
    ensures forall i :: 0 <= i < |r| ==> r[i] == GlobalServiceUp(Php.LTrim(containers[i], Php.EeChars))
  {
    seq(|containers|, i requires 0 <= i < |containers| => GlobalServiceUp(Php.LTrim(containers[i], Php.EeChars)))
  }

  /**
   The services started for the old containers are the renamed global
   services: each running `ee-<service>` container brings up `<service>`.
   */
  lemma StartsRenamedServices(status: string -> string)
    ensures var running := RunningContainers(OldContainers, status);
      var starts := StartGlobalServiceContainers(running);
      forall i :: 0 <= i < |starts| ==>
        |running[i]| > 3 && starts[i] == GlobalServiceUp(running[i][3..])
        && starts[i].service in {GlobalNginxProxy, GlobalRedis, GlobalDb}
  {
    var r := RunningContainers(OldContainers, status);
    forall i | 0 <= i < |r|
      ensures |r[i]| > 3 && Php.LTrim(r[i], Php.EeChars) == r[i][3..]
      ensures r[i][3..] in {GlobalNginxProxy, GlobalRedis, GlobalDb}
    {
      assert r[i] in r;
      OldContainerRenames(r[i]);
    }
  }

  /** Each old container name is "ee-" followed by the service, and `ltrim` strips exactly that. */
  lemma OldContainerRenames(c: string)
    requires c in OldContainers
    ensures |c| > 3 && Php.LTrim(c, Php.EeChars) == c[3..]
    ensures c[3..] in {GlobalNginxProxy, GlobalRedis, GlobalDb}
  {
    var name := if c == OldContainers[0] then GlobalNginxProxy
                else if c == OldContainers[1] then GlobalRedis
                else GlobalDb;
    assert c == "ee-" + name;
    Php.LTrimDropsEePrefix(name);
    assert ("ee-" + name)[3..] == name;
  }

  const UpdateHostnameCommand :=
    "docker-compose exec --user='www-data' php wp config set RT_WP_NGINX_HELPER_REDIS_HOSTNAME global-redis --add=true --type=constant"
  const RedisPluginCommand :=
    "docker-compose exec --user='www-data' php wp config set --type=variable redis_server \"array('host'=> 'global-redis','port'=> 6379,)\" --raw"

  /**
   `update_cache_host`: fails on a missing site directory before running
   anything, and stops at the first command that fails.
   */
  function UpdateCacheHost(site: Site, pathExists: bool, ok: string -> bool): (r: Run<()>)
    ensures !pathExists ==> r == Halted([], PathMissing(site.fsPath))
    ensures pathExists && !ok(UpdateHostnameCommand) ==> Exec(RedisPluginCommand) !in r.effects && r.Halted?
    ensures r.Done? <==> pathExists && ok(UpdateHostnameCommand) && ok(RedisPluginCommand)
    ensures r.Done? ==> r.effects == [Chdir(site.fsPath), Exec(UpdateHostnameCommand), Exec(RedisPluginCommand)]
  {
    if !pathExists then Halted([], PathMissing(site.fsPath))
    else if !ok(UpdateHostnameCommand) then
      Halted([Chdir(site.fsPath), Exec(UpdateHostnameCommand)], CacheHostNotUpdated(site.url))
    else if !ok(RedisPluginCommand) then
      Halted([Chdir(site.fsPath), Exec(UpdateHostnameCommand), Exec(RedisPluginCommand)],
             PluginConstantNotUpdated(site.url))
    else
      Done([Chdir(site.fsPath), Exec(UpdateHostnameCommand), Exec(RedisPluginCommand)], ())
  }
}
