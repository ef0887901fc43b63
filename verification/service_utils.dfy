/**
 The desired state of the global services and the guards around it
 (src/helper/service-utils.php).

 `GenerateGlobalComposeYml` computes what the global compose file describes:
 the database password (reused when one is stored), the per-service volume
 tables with their platform flags, the external volumes declared on Linux
 hosts, and the ordered list of proxy, database and cache services. The
 template rendering itself is foreign; the model stops at the data handed to
 it.
 */
module ServiceUtils {
  import opened Env
  import Php
  import opened Globals

  /** An entry of a volume table, with its `skip_*` flags (absent means false). */
  datatype Volume = Volume(
    name: string,
    hostPath: string,
    containerPath: string,
    skipDarwin: bool,
    skipLinux: bool,
    skipVolume: bool)

  /** A named volume the compose file declares as external. */
  datatype ExternalVolume = ExternalVolume(prefix: string, name: string)

  datatype Service = Service(
    name: string,
    containerName: string,
    image: string,
    restart: string,
    ports: seq<string>,
    environment: seq<string>,
    volumes: seq<Volume>,
    networks: seq<string>,
    command: Option<string>)

  /** The data the compose template is rendered from. */
  datatype Compose = Compose(externalVolumes: Option<seq<ExternalVolume>>, services: seq<Service>)

  /** A `create_volumes` call: the label and the table it is given. */
  datatype VolumeCreation = VolumeCreation(volumeLabel: string, volumes: seq<Volume>)

  /**
   What the generator reads from its surroundings: EE_ROOT_DIR, the platform
   flag, EE_PROXY_TYPE, the configured proxy ports, the image versions, the
   effective user and group ids, SERVICE_TEMPLATE_ROOT, and which volume
   labels already have volumes.
   */
  datatype Host = Host(
    rootDir: string,
    isDarwin: bool,
    proxyType: string,
    port80: string,
    port443: string,
    imageVersion: string -> string,
    euid: string,
    egid: string,
    templateRoot: string,
    labelsWithVolumes: set<string>)

  /**
   One run of the generator: the rendered data, the volume creations it
   issued, and the password it stored under the global-db option.
   */
  datatype Generated = Generated(compose: Compose, created: seq<VolumeCreation>, storedPassword: string)

  /** The three volume labels, in the order their volumes are created. */
  const VolumeLabels := [GlobalNginxProxy, GlobalDb, GlobalRedis]

  function Mount(name: string, hostPath: string, containerPath: string): Volume
  {
    Volume(name, hostPath, containerPath, false, false, false)
  }

  function NginxProxyVolumes(sd: string): seq<Volume>
  {
    [ Mount("certs", sd + "/nginx-proxy/certs", "/etc/nginx/certs"),
      Mount("dhparam", sd + "/nginx-proxy/dhparam", "/etc/nginx/dhparam"),
      Mount("confd", sd + "/nginx-proxy/conf.d", "/etc/nginx/conf.d"),
      Mount("htpasswd", sd + "/nginx-proxy/htpasswd", "/etc/nginx/htpasswd"),
      Mount("vhostd", sd + "/nginx-proxy/vhost.d", "/etc/nginx/vhost.d"),
      Mount("html", sd + "/nginx-proxy/html", "/usr/share/nginx/html"),
      Mount("nginx_proxy_logs", sd + "/nginx-proxy/logs", "/var/log/nginx"),
      Volume("/var/run/docker.sock", "/var/run/docker.sock", "/tmp/docker.sock:ro", false, false, true) ]
  }

  function DbVolumes(sd: string): seq<Volume>
  {
    [ Mount("db_data", sd + "/mariadb/data", "/var/lib/mysql"),
      Volume("db_conf", sd + "/mariadb/conf", "/etc/mysql", true, false, false),
      Volume("db_conf", sd + "/mariadb/conf/my.cnf", "/etc/mysql/my.cnf", false, true, true),
      Mount("db_logs", sd + "/mariadb/logs", "/var/log/mysql") ]
  }

  function RedisVolumes(sd: string): seq<Volume>
  {
    [ Volume("redis_data", sd + "/redis/data", "/data", true, false, false),
      Volume("redis_conf", sd + "/redis/conf", "/usr/local/etc/redis", true, false, false),
      Mount("redis_logs", sd + "/redis/logs", "/var/log/redis") ]
  }

  /** The volume table that belongs to each label. */
  function VolumesOf(labelIndex: nat, sd: string): seq<Volume>
    requires labelIndex < |VolumeLabels|
  {
    if labelIndex == 0 then NginxProxyVolumes(sd)
    else if labelIndex == 1 then DbVolumes(sd)
    else RedisVolumes(sd)
  }

  /** The external-volume list, written out literally as the generator does. */
  const ExternalVolumes: seq<ExternalVolume> :=
    [ ExternalVolume(GlobalNginxProxy, "certs"),
      ExternalVolume(GlobalNginxProxy, "dhparam"),
      ExternalVolume(GlobalNginxProxy, "confd"),
      ExternalVolume(GlobalNginxProxy, "htpasswd"),
      ExternalVolume(GlobalNginxProxy, "vhostd"),
      ExternalVolume(GlobalNginxProxy, "html"),
      ExternalVolume(GlobalNginxProxy, "nginx_proxy_logs"),
      ExternalVolume(GlobalDb, "db_data"),
      ExternalVolume(GlobalDb, "db_conf"),
      ExternalVolume(GlobalDb, "db_logs"),
      ExternalVolume(GlobalRedis, "redis_data"),
      ExternalVolume(GlobalRedis, "redis_conf"),
      ExternalVolume(GlobalRedis, "redis_logs") ]

  /** The entries of a table that are real volumes (no `skip_volume`), labelled. */
  function Declared(volumeLabel: string, table: seq<Volume>): seq<ExternalVolume>
    decreases |table|
  {
    if |table| == 0 then []
    else if table[0].skipVolume then Declared(volumeLabel, table[1..])
    else [ExternalVolume(volumeLabel, table[0].name)] + Declared(volumeLabel, table[1..])
  }

  /** Whether a volume entry is mounted on the given platform. */
  predicate ActiveOn(v: Volume, isDarwin: bool)
  {
    if isDarwin then !v.skipDarwin else !v.skipLinux
  }

  /**
   The hand-written external-volume list is exactly, label by label and in
   table order, the names of the entries that are not `skip_volume`; the
   second `db_conf` entry is a bind mount, so `db_conf` is declared once.
   */
  lemma ExternalVolumesAreTheRealVolumes(sd: string)
    ensures ExternalVolumes == Declared(GlobalNginxProxy, NginxProxyVolumes(sd))
                             + Declared(GlobalDb, DbVolumes(sd))
                             + Declared(GlobalRedis, RedisVolumes(sd))
  {
    DeclaredProxyVolumes(sd);
    DeclaredDbVolumes(sd);
    DeclaredRedisVolumes(sd);
    assert ExternalVolumes == ExternalVolumes[..7] + ExternalVolumes[7..10] + ExternalVolumes[10..];
  }

  lemma DeclaredProxyVolumes(sd: string)
    ensures Declared(GlobalNginxProxy, NginxProxyVolumes(sd)) == ExternalVolumes[..7]
  {
    var p := NginxProxyVolumes(sd);
    assert Declared(GlobalNginxProxy, p[7..]) == [];
    assert Declared(GlobalNginxProxy, p[6..]) == ExternalVolumes[6..7];
    assert Declared(GlobalNginxProxy, p[5..]) == ExternalVolumes[5..7];
    assert Declared(GlobalNginxProxy, p[4..]) == ExternalVolumes[4..7];
    assert Declared(GlobalNginxProxy, p[3..]) == ExternalVolumes[3..7];
    assert Declared(GlobalNginxProxy, p[2..]) == ExternalVolumes[2..7];
    assert Declared(GlobalNginxProxy, p[1..]) == ExternalVolumes[1..7];
  }

  lemma DeclaredDbVolumes(sd: string)
    ensures Declared(GlobalDb, DbVolumes(sd)) == ExternalVolumes[7..10]
  {
    var d := DbVolumes(sd);
    assert Declared(GlobalDb, d[3..]) == ExternalVolumes[9..10];
    assert Declared(GlobalDb, d[2..]) == ExternalVolumes[9..10];
    assert Declared(GlobalDb, d[1..]) == ExternalVolumes[8..10];
  }

  lemma DeclaredRedisVolumes(sd: string)
    ensures Declared(GlobalRedis, RedisVolumes(sd)) == ExternalVolumes[10..]
  {
    var r := RedisVolumes(sd);
    assert Declared(GlobalRedis, r[2..]) == ExternalVolumes[12..];
    assert Declared(GlobalRedis, r[1..]) == ExternalVolumes[11..];
  }

  /**
   Lengths of label and name, and the fourth-from-last name character: a
   proof device for `ExternalVolumesAreDistinct`, with no counterpart in the
   generator.
   */
  function VolumeKey(e: ExternalVolume): (int, int, char)
  {
    (|e.prefix|, |e.name|, if |e.name| >= 4 then e.name[|e.name| - 4] else ' ')
  }

  /** No external volume is declared twice. */
  lemma ExternalVolumesAreDistinct()
    ensures forall i, j :: 0 <= i < j < |ExternalVolumes| ==> ExternalVolumes[i] != ExternalVolumes[j]
  {
    var keys := [(18, 5, 'e'), (18, 7, 'a'), (18, 5, 'o'), (18, 8, 's'), (18, 6, 'o'), (18, 4, 'h'), (18, 16, 'l'),
                 (9, 7, 'd'), (9, 7, 'c'), (9, 7, 'l'),
                 (12, 10, 'd'), (12, 10, 'c'), (12, 10, 'l')];
    assert forall i :: 0 <= i < |ExternalVolumes| ==> VolumeKey(ExternalVolumes[i]) == keys[i];
  }

  /**
   The two `db_conf` entries carry complementary platform flags, so on either
   platform exactly one of them is mounted.
   */
  lemma DbConfMountedOnceOnEachPlatform(sd: string, isDarwin: bool)
    ensures var t := DbVolumes(sd);
      exists i :: 0 <= i < |t| && t[i].name == "db_conf" && ActiveOn(t[i], isDarwin)
        && forall j :: 0 <= j < |t| && j != i && t[j].name == "db_conf" ==> !ActiveOn(t[j], isDarwin)
  {
    var t := DbVolumes(sd);
    assert t[0].name != "db_conf" by { assert t[0].name[3] != "db_conf"[3]; }
    assert t[3].name != "db_conf" by { assert t[3].name[3] != "db_conf"[3]; }
    OnePlatformEntryActive(t, "db_conf", isDarwin);
  }

  /**
   A four-entry table whose middle entries share a name and carry opposite
   platform flags, while the outer entries have other names, has that name
   mounted exactly once on either platform.
   */
  lemma OnePlatformEntryActive(t: seq<Volume>, name: string, isDarwin: bool)
    requires |t| == 4 && t[0].name != name && t[3].name != name
    requires t[1].name == name && t[2].name == name
    requires t[1].skipDarwin == t[2].skipLinux && t[1].skipLinux == t[2].skipDarwin && t[1].skipDarwin != t[1].skipLinux
    ensures exists i :: 0 <= i < |t| && t[i].name == name && ActiveOn(t[i], isDarwin)
              && forall j :: 0 <= j < |t| && j != i && t[j].name == name ==> !ActiveOn(t[j], isDarwin)
  {
    var i := if ActiveOn(t[1], isDarwin) then 1 else 2;
    forall j | 0 <= j < |t| && j != i && t[j].name == name
      ensures !ActiveOn(t[j], isDarwin)
    {
      assert j == 3 - i;
    }
    assert t[i].name == name && ActiveOn(t[i], isDarwin);
  }

  /** The value of `key` in a list of `KEY=value` environment entries. */
  function EnvValue(environment: seq<string>, key: string): Option<string>
    decreases |environment|
  {
    if |environment| == 0 then None
    else
      var p := key + "=";
      if |p| <= |environment[0]| && environment[0][..|p|] == p then Some(environment[0][|p|..])
      else EnvValue(environment[1..], key)
  }

  lemma EnvValueOfEntry(key: string, value: string)
    ensures EnvValue([key + "=" + value], key) == Some(value)
  {
    var p := key + "=";
    assert (p + value)[..|p|] == p;
    assert (p + value)[|p|..] == value;
  }

  /** The password the generator uses: the stored one, unless PHP finds it empty. */
  function ChoosePassword(stored: Option<string>, random: string): string
  {
    if stored.None? || Php.Empty(stored.value) then random else stored.value
  }

  /** The three global services, with the database password rendered into the db service. */
  function ServicesFor(h: Host, password: string): (r: seq<Service>)
    ensures |r| == 3
    ensures r[0].name == GlobalNginxProxy && r[1].name == GlobalDb && r[2].name == GlobalRedis
    ensures EnvValue(r[1].environment, "MYSQL_ROOT_PASSWORD") == Some(password)
    ensures r[0].ports == [h.port80 + ":80", h.port443 + ":443"]
    ensures r[1].ports == [] && r[2].ports == []
    ensures r[0].networks == ["global-frontend-network"]
    ensures r[1].networks == ["global-backend-network"] && r[2].networks == ["global-backend-network"]
    // each service mounts its own volume table
    ensures r[0].volumes == NginxProxyVolumes(ServiceDir(h.rootDir))
    ensures r[1].volumes == DbVolumes(ServiceDir(h.rootDir))
    ensures r[2].volumes == RedisVolumes(ServiceDir(h.rootDir))
  {
    EnvValueOfEntry("MYSQL_ROOT_PASSWORD", password);
    var sd := ServiceDir(h.rootDir);
    [ Service(GlobalNginxProxy, h.proxyType,
              "easyengine/nginx-proxy:" + h.imageVersion("easyengine/nginx-proxy"), "always",
              [h.port80 + ":80", h.port443 + ":443"],
              ["LOCAL_USER_ID=" + h.euid, "LOCAL_GROUP_ID=" + h.egid],
              NginxProxyVolumes(sd), ["global-frontend-network"], None),
      Service(GlobalDb, GlobalDbContainer,
              "easyengine/mariadb:" + h.imageVersion("easyengine/mariadb"), "always",
              [], ["MYSQL_ROOT_PASSWORD=" + password],
              DbVolumes(sd), ["global-backend-network"], None),
      Service(GlobalRedis, GlobalRedisContainer,
              "easyengine/redis:" + h.imageVersion("easyengine/redis"), "always",
              [], [],
              RedisVolumes(sd), ["global-backend-network"],
              Some("[\"redis-server\", \"/usr/local/etc/redis/redis.conf\"]")) ]
  }

  /** A label's volumes are created only on Linux and only if it has none yet. */
  function CreationsFor(h: Host): (r: seq<VolumeCreation>)
    ensures h.isDarwin ==> r == []
    ensures forall c :: c in r ==> c.volumeLabel in VolumeLabels && c.volumeLabel !in h.labelsWithVolumes
    ensures !h.isDarwin ==> forall i :: 0 <= i < |VolumeLabels| && VolumeLabels[i] !in h.labelsWithVolumes ==>
              VolumeCreation(VolumeLabels[i], VolumesOf(i, ServiceDir(h.rootDir))) in r
    // every creation is for a label with that label's own table, and no label is created twice
    ensures forall c :: c in r ==>
              exists i :: 0 <= i < |VolumeLabels| && c == VolumeCreation(VolumeLabels[i], VolumesOf(i, ServiceDir(h.rootDir)))
    ensures forall j, k :: 0 <= j < k < |r| ==> r[j].volumeLabel != r[k].volumeLabel
  {
    var sd := ServiceDir(h.rootDir);
    if h.isDarwin then []
    else
      (if GlobalNginxProxy in h.labelsWithVolumes then [] else [VolumeCreation(GlobalNginxProxy, NginxProxyVolumes(sd))])
      + (if GlobalDb in h.labelsWithVolumes then [] else [VolumeCreation(GlobalDb, DbVolumes(sd))])
      + (if GlobalRedis in h.labelsWithVolumes then [] else [VolumeCreation(GlobalRedis, RedisVolumes(sd))])
  }

  /** `generate_global_docker_compose_yml`, with the stored option and a fresh random password as inputs. */
  function GenerateGlobalComposeYml(h: Host, stored: Option<string>, random: string): (g: Generated)
    // a stored, non-empty password is reused verbatim; otherwise the random one is used
    ensures stored.Some? && !Php.Empty(stored.value) ==> g.storedPassword == stored.value
    ensures stored.None? || Php.Empty(stored.value) ==> g.storedPassword == random
    // services: proxy, db, redis, in that order
    ensures |g.compose.services| == 3
    ensures g.compose.services[0].name == GlobalNginxProxy
    ensures g.compose.services[1].name == GlobalDb
    ensures g.compose.services[2].name == GlobalRedis
    // the persisted password is the one rendered into the database service
    ensures EnvValue(g.compose.services[1].environment, "MYSQL_ROOT_PASSWORD") == Some(g.storedPassword)
    // only the proxy publishes ports
    ensures g.compose.services[0].ports == [h.port80 + ":80", h.port443 + ":443"]
    ensures g.compose.services[1].ports == [] && g.compose.services[2].ports == []
    ensures g.compose.services[0].networks == ["global-frontend-network"]
    ensures g.compose.services[1].networks == ["global-backend-network"]
    ensures g.compose.services[2].networks == ["global-backend-network"]
    // each service mounts its own volume table
    ensures g.compose.services[0].volumes == NginxProxyVolumes(ServiceDir(h.rootDir))
    ensures g.compose.services[1].volumes == DbVolumes(ServiceDir(h.rootDir))
    ensures g.compose.services[2].volumes == RedisVolumes(ServiceDir(h.rootDir))
    // external volumes are declared, and volumes created, only off Darwin
    ensures g.compose.externalVolumes.Some? <==> !h.isDarwin
    ensures g.compose.externalVolumes.Some? ==> g.compose.externalVolumes.value == ExternalVolumes
    ensures h.isDarwin ==> g.created == []
    ensures forall c :: c in g.created ==> c.volumeLabel in VolumeLabels && c.volumeLabel !in h.labelsWithVolumes
    ensures !h.isDarwin ==> forall i :: 0 <= i < |VolumeLabels| && VolumeLabels[i] !in h.labelsWithVolumes ==>
              VolumeCreation(VolumeLabels[i], VolumesOf(i, ServiceDir(h.rootDir))) in g.created
    ensures forall c :: c in g.created ==>
              exists i :: 0 <= i < |VolumeLabels| && c == VolumeCreation(VolumeLabels[i], VolumesOf(i, ServiceDir(h.rootDir)))
    ensures forall j, k :: 0 <= j < k < |g.created| ==> g.created[j].volumeLabel != g.created[k].volumeLabel
  {
    var password := ChoosePassword(stored, random);
    Generated(
      Compose(if h.isDarwin then None else Some(ExternalVolumes), ServicesFor(h, password)),
      CreationsFor(h),
      password)
  }

  /**
   Generating twice with the store left as the first run wrote it renders the
   same configuration and stores the same password, whatever the second
   random password is, provided the first random password is not one PHP
   considers empty.
   */
  lemma GenerateIsIdempotent(h: Host, stored: Option<string>, random: string, random': string)
    requires !Php.Empty(random)
    ensures var g := GenerateGlobalComposeYml(h, stored, random);
      var g' := GenerateGlobalComposeYml(h, Some(g.storedPassword), random');
      g'.compose == g.compose && g'.storedPassword == g.storedPassword
  {
  }

  /** A network is created only when absent; a failed creation is fatal. */
  function EnsureNetwork(network: string, present: string -> bool, create: string -> bool): Run<()>
  {
    if present(network) then Done([], ())
    else if create(network) then Done([CreateNetwork(network)], ())
    else Halted([CreateNetwork(network)], NetworkNotCreated(network))
  }

  predicate CreationFails(network: string, present: string -> bool, create: string -> bool)
  {
    !present(network) && !create(network)
  }

  /** `boot_global_networks`: backend network first, then frontend. */
  function BootGlobalNetworks(present: string -> bool, create: string -> bool): (r: Run<()>)
    ensures forall e :: e in r.effects ==>
              e.CreateNetwork? && !present(e.network)
              && (e.network == GlobalBackendNetwork || e.network == GlobalFrontendNetwork)
    ensures r.Halted? <==> CreationFails(GlobalBackendNetwork, present, create)
                           || CreationFails(GlobalFrontendNetwork, present, create)
    ensures CreationFails(GlobalBackendNetwork, present, create) ==>
              r == Halted([CreateNetwork(GlobalBackendNetwork)], NetworkNotCreated(GlobalBackendNetwork))
    ensures r.Done? ==> (CreateNetwork(GlobalBackendNetwork) in r.effects <==> !present(GlobalBackendNetwork))
    ensures r.Done? ==> (CreateNetwork(GlobalFrontendNetwork) in r.effects <==> !present(GlobalFrontendNetwork))
  {
    Then(EnsureNetwork(GlobalBackendNetwork, present, create), EnsureNetwork(GlobalFrontendNetwork, present, create))
  }

  /** The container `init_global_container` looks at: the given one, or "ee-" + service. */
  function ContainerFor(service: string, container: string): string
  {
    if Php.Empty(container) then "ee-" + service else container
  }

  /** `init_global_container`: boots the service's container unless it is already running. */
  function InitGlobalContainer(
    h: Host, service: string, container: string,
    netExists: string -> bool, netCreate: string -> bool,
    composeExists: bool, myCnfExists: bool, status: string -> string): (r: Run<bool>)
    ensures r.Halted? <==> BootGlobalNetworks(netExists, netCreate).Halted?
    ensures r.Done? ==> (r.value <==> status(ContainerFor(service, container)) != "running")
    ensures Php.Empty(container) && r.Done? ==> (r.value <==> status("ee-" + service) != "running")
    ensures r.Done? ==> (r.value <==> BootContainer(ContainerFor(service, container), "docker-compose up -d " + service) in r.effects)
    ensures r.Done? ==> (GenerateCompose in r.effects <==> !composeExists)
  {
    var c := ContainerFor(service, container);
    var sd := ServiceDir(h.rootDir);
    var generate := if composeExists then [] else [GenerateCompose];
    var rest :=
      if status(c) != "running" then
        var copy := if h.isDarwin && service == GlobalDb && !myCnfExists
                    then [Copy(h.templateRoot + "/my.cnf.mustache", sd + "/mariadb/conf/my.cnf")]
                    else [];
        Done(generate + [Chdir(sd)] + copy + [BootContainer(c, "docker-compose up -d " + service)], true)
      else
        Done(generate, false);
    Then(BootGlobalNetworks(netExists, netCreate), rest)
  }

  const Inspect80 := "docker inspect --format '{{ (index (index .NetworkSettings.Ports \"80/tcp\") 0).HostPort }}' ee-global-nginx-proxy"
  const Inspect443 := "docker inspect --format '{{ (index (index .NetworkSettings.Ports \"443/tcp\") 0).HostPort }}' ee-global-nginx-proxy"

  /** The header line written into the proxy's version.conf (PHP keeps the backslashes). */
  function VersionLine(version: string): string
  {
    "add_header X-Powered-By \\\"EasyEngine v" + version + "\\\";"
  }

  function VersionWriteCommand(version: string): string
  {
    "docker-compose exec global-nginx-proxy bash -c 'echo \"" + VersionLine(version) + "\" > /version.conf'"
  }

  const ProxyReloadCommand := "docker-compose exec global-nginx-proxy bash -c \"nginx -t && nginx -s reload\""

  /** Distinct versions give distinct header lines. */
  lemma VersionLineInjective(v: string, v': string)
    ensures VersionLine(v) == VersionLine(v') ==> v == v'
  {
    var a := "add_header X-Powered-By \\\"EasyEngine v";
    var b := "\\\";";
    if VersionLine(v) == VersionLine(v') {
      assert |v| == |v'|;
      assert v == VersionLine(v)[|a|..|a| + |v|];
      assert v' == VersionLine(v')[|a|..|a| + |v'|];
    }
  }

  /**
   `set_nginx_proxy_version_conf`: nothing unless the proxy runs; the proxy is
   reloaded only when writing the version line succeeded.
   */
  function SetNginxProxyVersionConf(h: Host, running: bool, version: string, execOk: string -> bool): (r: seq<Effect>)
    ensures !running ==> r == []
    ensures running ==> |r| >= 2 && r[1] == Exec(VersionWriteCommand(version))
    ensures Exec(ProxyReloadCommand) in r <==> running && execOk(VersionWriteCommand(version))
  {
    if !running then []
    else
      var write := VersionWriteCommand(version);
      [Chdir(ServiceDir(h.rootDir)), Exec(write)] + (if execOk(write) then [Exec(ProxyReloadCommand)] else [])
  }

  /** What `nginx_proxy_check` learns from the engine and the host. */
  datatype ProxyProbe = ProxyProbe(
    running: bool,            // container_status(EE_PROXY_TYPE) is "running"
    hostPort80: string,       // stdout of the two `docker inspect` launches
    hostPort443: string,
    port80Free: bool,         // get_curl_info answers
    port443Free: bool,
    composeExists: bool,
    composeUpOk: bool,
    runningAfterUp: bool)     // status seen by set_nginx_proxy_version_conf

  /**
   The branch of `nginx_proxy_check` that starts a stopped proxy: compose file
   if missing, networks, `docker_compose_up`, then the version header.
   */
  function StartProxy(
    h: Host, version: string, probe: ProxyProbe,
    netExists: string -> bool, netCreate: string -> bool, execOk: string -> bool): (r: Run<bool>)
    ensures r.Halted? <==> BootGlobalNetworks(netExists, netCreate).Halted? || !probe.composeUpOk
    ensures r.Done? ==> r.value && ComposeUp(ServiceDir(h.rootDir), [GlobalNginxProxy]) in r.effects
    ensures !probe.composeExists ==> |r.effects| > 0 && r.effects[0] == GenerateCompose
  {
    var generate := if probe.composeExists then [] else [GenerateCompose];
    var up := [ComposeUp(ServiceDir(h.rootDir), [GlobalNginxProxy])];
    var started :=
      if !probe.composeUpOk then
        Halted(up, ProxyNotStarted(h.proxyType))
      else
        Done(up + SetNginxProxyVersionConf(h, probe.runningAfterUp, version, execOk), true);
    assert started.effects[0] in started.effects;
    Then(Done(generate, ()), Then(BootGlobalNetworks(netExists, netCreate), started))
  }

  /**
   `nginx_proxy_check`: a running proxy must publish the configured ports;
   a stopped one is started only when both ports are free.
   */
  function NginxProxyCheck(
    h: Host, version: string, probe: ProxyProbe,
    netExists: string -> bool, netCreate: string -> bool, execOk: string -> bool): (r: Run<bool>)
    ensures probe.running ==> r.effects == [Launch(Inspect80), Launch(Inspect443)]
    ensures probe.running ==>
              (r.Halted? <==> h.port80 != Php.Trim(probe.hostPort80) || h.port443 != Php.Trim(probe.hostPort443))
    ensures !probe.running && !(probe.port80Free && probe.port443Free) ==> r.Halted? && r.effects == []
    ensures !probe.running && probe.port80Free && probe.port443Free ==>
              (r.Halted? <==> BootGlobalNetworks(netExists, netCreate).Halted? || !probe.composeUpOk)
    ensures r.Done? ==> (r.value <==> !probe.running)
    ensures r.Done? && r.value ==> ComposeUp(ServiceDir(h.rootDir), [GlobalNginxProxy]) in r.effects
  {
    if probe.running then
      var launches := [Launch(Inspect80), Launch(Inspect443)];
      if h.port80 != Php.Trim(probe.hostPort80) || h.port443 != Php.Trim(probe.hostPort443) then
        Halted(launches, PortMismatch)
      else
        Done(launches, false)
    else if !(probe.port80Free && probe.port443Free) then
      Halted([], PortsBusy(h.port80, h.port443))
    else
      StartProxy(h, version, probe, netExists, netCreate, execOk)
  }
}
