/**
 Migration steps as data.

 A migration's `up()` hands a revertable step processor an ordered list of
 steps, each naming a forward action, an optional reverse action and the
 argument lists of both, and then throws if `execute()` reports failure. The
 processor itself is not part of this model: what `execute()` answers is an
 input.
 */
module Steps {
  import opened Env

  /** The callables the migrations name as step actions. */
  datatype Action =
    | BackupRestore                 // SiteContainers::backup_restore
    | GenerateGlobalComposeYml      // Service\Utils\generate_global_docker_compose_yml
    | EnableSupportContainers       // GlobalContainers::enable_support_containers
    | DisableSupportContainers      // GlobalContainers::disable_support_containers
    | GlobalServiceUpAction         // GlobalContainers::global_service_up
    | UpdateCacheHost               // ChangeGlobalServiceContainerNames::update_cache_host
    | RenamesRestoreYmlFile         // ChangeGlobalServiceContainerNames::restore_yml_file
    | RemoveGlobalEeContainers      // ChangeGlobalServiceContainerNames::remove_global_ee_containers
    | StartGlobalServiceContainers  // ChangeGlobalServiceContainerNames::start_global_service_containers
    | RenamesStopDefaultContainers  // ChangeGlobalServiceContainerNames::stop_default_containers
    | CronRestoreYmlFile            // GlobalCron::restore_yml_file
    | RemoveOldCronContainers       // GlobalCron::remove_old_cron_containers
    | StartGlobalCronContainer      // GlobalCron::start_global_service_container
    | CronStopDefaultContainers     // GlobalCron::stop_default_containers
    | RemoveOldCronContainer        // AddCronGlobalService::remove_old_cron_container

  /** A positional argument of a step action. */
  datatype Arg =
    | PathArg(path: string)
    | ContainersArg(containers: seq<string>)
    | SiteArg(site: Site)
    | ServiceArg(service: string)
    | FilesystemArg

  /** One step; `None` stands for the `null` the PHP code passes. */
  datatype Step = Step(
    name: string,
    forward: Action,
    reverse: Option<Action>,
    args: Option<seq<Arg>>,
    reverseArgs: Option<seq<Arg>>)

  /** What a migration's `up()` did. */
  datatype Up =
    | Skipped
    | Submitted(prelude: seq<Effect>, steps: seq<Step>, threw: bool)

  function Names(steps: seq<Step>): (r: seq<string>)
    ensures |r| == |steps|
    ensures forall i :: 0 <= i < |steps| ==> r[i] == steps[i].name
  {
    if |steps| == 0 then [] else [steps[0].name] + Names(steps[1..])
  }

  /**
   Hands the steps to a fresh processor and throws when its `execute()`
   reports failure; `executeOk` is that report.
   */
  function Submit(prelude: seq<Effect>, steps: seq<Step>, executeOk: bool): (u: Up)
    ensures u.Submitted? && u.prelude == prelude && u.steps == steps
    ensures u.threw <==> !executeOk
  {
    Submitted(prelude, steps, !executeOk)
  }

  /** True when `sub` can be obtained from `s` by deleting elements. */
  ghost predicate IsSubsequence<T>(sub: seq<T>, s: seq<T>)
    decreases |s|
  {
    if |sub| == 0 then true
    else if |s| == 0 then false
    else if sub[0] == s[0] then IsSubsequence(sub[1..], s[1..])
    else IsSubsequence(sub, s[1..])
  }

  /**
   The containers of `candidates` whose status is "running", in the order of
   `candidates` (the loop over the old container names in the migrations).
   */
  function RunningContainers(candidates: seq<string>, status: string -> string): (r: seq<string>)
    ensures forall c :: c in r <==> c in candidates && status(c) == "running"
    ensures IsSubsequence(r, candidates)
    decreases |candidates|
  {
    if |candidates| == 0 then []
    else if status(candidates[0]) == "running" then [candidates[0]] + RunningContainers(candidates[1..], status)
    else RunningContainers(candidates[1..], status)
  }
}
