/**
 The world the global-service code talks to, reduced to data.

 Every call the PHP code makes into the container engine, the shell, the
 filesystem or the option store is recorded as an `Effect` in an ordered
 trace; what such a call answers (exit status, stdout, container status) is
 supplied by the caller of a model function as an input.
 */
module Env {

  datatype Option<+T> = None | Some(value: T)

  /** The three site flavours a hosted site can have. */
  datatype SiteType = HTML | PHP | WordPress

  /** The fields of a site record the global-service code reads. */
  datatype Site = Site(
    url: string,
    fsPath: string,
    siteType: string,
    enabled: bool,
    dbHost: string,
    cacheHost: string)

  /** One externally visible action, in the order it is issued. */
  datatype Effect =
    | Exec(cmd: string)                        // EE::exec: run, exit status matters
    | Launch(cmd: string)                      // EE::launch: run, stdout captured
    | Chdir(dir: string)
    | Copy(source: string, destination: string) // backup_restore / Filesystem::copy
    | WriteFile(path: string, contents: string)
    | MakeDir(path: string)
    | Download(url: string, filename: string)
    | SetOption(key: string, value: string)    // Option::set
    | GenerateCompose                          // generate_global_docker_compose_yml
    | EnsureNetworks                           // ensure_global_network_initialized
    | CreateNetwork(network: string)
    | CreateVolumes(volumeLabel: string)
    | ComposeUp(dir: string, services: seq<string>)
    | BootContainer(container: string, command: string)
    | GlobalServiceUp(service: string)         // GlobalContainers::global_service_up
    | UpdateCronConfig
    | DisableSite(kind: SiteType, site: string)
    | EnableSite(kind: SiteType, site: string)

  /**
   Why a run stopped: one case per `EE::error` call or thrown exception of the
   modelled code, each standing for the message shown beside it.
   */
  datatype Failure =
    | NetworkNotCreated(network: string)        // "Unable to create network <network>"
    | PortMismatch                              // "Ports of current running nginx-proxy and ports
                                                //  specified in EasyEngine config file don't match."
    | PortsBusy(port80: string, port443: string) // "Cannot create/start proxy container. Please make
                                                //  sure port <port80> and <port443> are free."
    | ProxyNotStarted(proxyType: string)        // "There was some error in starting <proxyType>
                                                //  container. Please check logs."
    | CronSchedulerNotRemoved                   // "Unable to remove ee-cron-scheduler container"
    | ContainersNotStarted                      // "Unable to start ee-containers"
    | ContainersNotRemoved                      // "Unable to remove global service containers"
    | DefaultContainersNotRemoved               // "Unable to remove default global service containers"
    | PathMissing(path: string)                 // "<path> path not exists"
    | CacheHostNotUpdated(site: string)         // "Unable to update cache host of <site>"
    | PluginConstantNotUpdated(site: string)    // "Unable to update plugin constant <site>"
    | UnknownSiteType                           // "Unknown site type"

  /**
   The result of running a piece of PHP code: the effects it issued and either
   its return value or the failure (`EE::error`, a thrown exception) that
   stopped it.
   */
  datatype Run<+T> =
    | Done(effects: seq<Effect>, value: T)
    | Halted(effects: seq<Effect>, failure: Failure)

  /** Runs `first`, and `rest` after it unless `first` halted. */
  function Then<T>(first: Run<()>, rest: Run<T>): (r: Run<T>)
    ensures r.Halted? <==> first.Halted? || rest.Halted?
    ensures first.Halted? ==> r.Halted? && r.effects == first.effects && r.failure == first.failure
    ensures first.Done? ==> r.effects == first.effects + rest.effects
    ensures r.Done? ==> r.value == rest.value
    ensures r.Halted? && first.Done? ==> r.failure == rest.failure
  {
    match first
    case Halted(e, m) => Halted(e, m)
    case Done(e, _) =>
      match rest
      case Done(e', v) => Done(e + e', v)
      case Halted(e', m) => Halted(e + e', m)
  }
}

/** The names service-command.php defines once for the whole extension. */
module Globals {

  const GlobalDb := "global-db"
  const GlobalDbContainer := "ee-global-db"
  const GlobalFrontendNetwork := "ee-global-frontend-network"
  const GlobalBackendNetwork := "ee-global-backend-network"
  const GlobalRedis := "global-redis"
  /** The proxy's service name in the global compose file. */
  const GlobalNginxProxy := "global-nginx-proxy"
  const GlobalRedisContainer := "ee-global-redis"

  /** EE_SERVICE_DIR, derived from EE_ROOT_DIR. */
  function ServiceDir(rootDir: string): string
  {
    rootDir + "/services"
  }

  /** The global compose file every migration reads, writes or backs up. */
  function ComposeFile(rootDir: string): string
  {
    ServiceDir(rootDir) + "/docker-compose.yml"
  }
}
