# EasyEngine service-command: global services and their migrations

This project models the part of EasyEngine's `service` command that decides what
the global services look like and how older installations are moved to that
layout. It also proves properties of that model in Dafny.

The global services are the nginx proxy, MariaDB and Redis. The model covers:

- **The desired-state builder** (`src/helper/service-utils.php`). It builds the
  global compose description: the database password (a stored one is reused),
  the per-service volume tables with their platform flags, the external volumes
  declared off Darwin, and the ordered service list. It also covers the guards
  around it: network boot, container boot, the proxy port and occupancy check,
  and the proxy's version header.
- **Nine container migrations.** Each `up()` is a function from a snapshot of
  the environment to one of two things:
  - a skip, or an ordered list of revertable steps (a name, a forward action, an
    optional reverse action and both argument lists) plus the outcome of
    `execute()`;
  - for the migrations that act directly, a trace of the commands issued.
- **The PHP built-ins the code leans on**, with PHP's own semantics:
  - `empty()` treats `"0"` as empty;
  - `ltrim($c, 'ee-')` strips a character set, not a prefix;
  - `trim`, `implode`, and a string built by a `foreach`.

Everything that talks to Docker, the shell, the filesystem or the option store
is an input:

- a container status map;
- the site records the code queries (`Site::all()`, `Site::where(...)`);
- the temporary directory `get_temp_dir()` returns;
- "exists" and "succeeds" predicates;
- the stdout of launched commands;
- the stored password and a random password;
- the platform flag;
- the outcome of the step processor.

What the code does with these is the model's output. A command is an `Effect` in
a trace. An `EE::error` or a thrown exception ends a `Run` as `Halted`, with a
`Failure` case per message.

Files: `env.dfy` (effects, runs, global names), `php.dfy`, `steps.dfy` (step
data), `service_utils.dfy`, `snapshot.dfy` (the record-regenerate-restart
pattern shared by three migrations), and one file per migration.

Two details of the code are easy to miss, and the model keeps both:

- A first execution of save-global-db-pass still runs when a compose file
  exists (save_global_db_pass.php:24-30).
- The rc1 database fix runs its health check against a running database before
  it decides to skip (rc1_db_fix.php:27-40).

## Model

| member | source | states |
|---|---|---|
| `Php.LTrim` | migrations/container/20181225063950_service-command_change_global_service_container_names.php:197 | The result is a suffix of the input. Every character removed is in the set, and the result does not start with a set character, so the longest such prefix is removed. |
| `Php.RTrim` | migrations/container/20230112183952_service-command_global_cron.php:157 | The result is a prefix of the input. Every character removed is in the set, and the result does not end with one. |
| `Php.TrimEmptyIffBlank` | migrations/container/20230112183952_service-command_global_cron.php:157 | `trim` leaves nothing exactly when every character is whitespace. |
| `Php.TrimUnchanged` | migrations/container/20230112183952_service-command_global_cron.php:157 | A string that neither starts nor ends with whitespace is returned unchanged by `trim`. |
| `Php.ImplodeBlank` | migrations/container/20230112183952_service-command_global_cron.php:156-157 | A list joined with spaces is blank exactly when every element is blank. The cron migration's emptiness guard also holds for a list that joins to `"0"`, because `empty()` is true of `"0"`. |
| `Php.ConcatMapAppend` | migrations/container/20230112183952_service-command_global_cron.php:138-141 | The string a `foreach` builds over two lists in a row is the two strings in a row. |
| `Php.LTrimStripsRun` | migrations/container/20181225063950_service-command_change_global_service_container_names.php:197 | `ltrim` removes exactly a leading run of set characters and stops at the first other character. |
| `Php.LTrimDropsEePrefix` | migrations/container/20181225063950_service-command_change_global_service_container_names.php:194-199 | `ltrim("ee-" + name, 'ee-')` gives back `name` when `name` starts with neither `e` nor `-`. |
| `Php.LTrimIsNotPrefixRemoval` | migrations/container/20181225063950_service-command_change_global_service_container_names.php:197 | `ltrim` also eats an `e` belonging to the name: `ee-example` becomes `xample`, not `example`. |
| `Php.LTrimIdempotent` | migrations/container/20230112183952_service-command_global_cron.php:140 | Stripping the same set twice strips nothing more. |
| `Steps.RunningContainers` | migrations/container/20181225063950_service-command_change_global_service_container_names.php:56-63 | The list holds exactly the candidates whose status is "running", in candidate order (a sublist). |
| `ServiceUtils.ExternalVolumesAreTheRealVolumes` | src/helper/service-utils.php:119-226 | Label by label and in table order, the literal external-volume list is exactly the names of the table entries without `skip_volume`. The bind-mounted second `db_conf` is not declared again. |
| `ServiceUtils.ExternalVolumesAreDistinct` | src/helper/service-utils.php:210-226 | No external volume is declared twice. |
| `ServiceUtils.DbConfMountedOnceOnEachPlatform` | src/helper/service-utils.php:163-187 | On Darwin and on Linux alike, exactly one `db_conf` entry of the database table is active: the two entries carry opposite flags. |
| `ServiceUtils.OnePlatformEntryActive` | src/helper/service-utils.php:169-181 | In a four-entry table shaped like the db table (the name at indices 1 and 2 with opposite platform flags, other names at 0 and 3), exactly one entry of that name is active on either platform. |
| `ServiceUtils.ServicesFor` | src/helper/service-utils.php:241-284 | The services are proxy, db and redis in that order, and the password is the `MYSQL_ROOT_PASSWORD` value of the db service. Only the proxy publishes ports (`<p80>:80`, `<p443>:443`). The proxy is on the frontend network, db and redis on the backend. Each service mounts its own volume table: the proxy's, the db's and redis's. |
| `ServiceUtils.CreationsFor` | src/helper/service-utils.php:228-238 | Nothing is created on Darwin. Off Darwin, a label's table is created exactly when the label has no volumes yet, and only for the three labels. Each creation carries its label's own table, and no label is created twice. |
| `ServiceUtils.GenerateGlobalComposeYml` | src/helper/service-utils.php:110-289 | A stored non-empty password is reused verbatim, otherwise the random one is used. The stored password is the one rendered into the db service. The service order, ports and mounted volume tables are as for `ServicesFor`. External volumes are declared exactly off Darwin, and creations are as for `CreationsFor`. |
| `ServiceUtils.GenerateIsIdempotent` | src/helper/service-utils.php:116-286 | Provided the first random password is non-empty, generating again with the store as the first run left it renders the same configuration and stores the same password, whatever the new random password. |
| `ServiceUtils.BootGlobalNetworks` | src/helper/service-utils.php:94-103 | Only absent global networks are created. The run fails exactly when creating an absent network fails. The backend network is checked first, and its failure stops everything. |
| `ServiceUtils.InitGlobalContainer` | src/helper/service-utils.php:63-89 | The container defaults to `ee-<service>`. A network failure is fatal. The result is true exactly when the container was not running, which is exactly when a boot is issued. The compose file is generated exactly when it is missing. |
| `ServiceUtils.VersionLineInjective` | src/helper/service-utils.php:300 | Different versions give different header lines. |
| `ServiceUtils.SetNginxProxyVersionConf` | src/helper/service-utils.php:294-309 | Nothing happens unless the proxy runs. The version line is written, and the reload is issued exactly when writing succeeded. |
| `ServiceUtils.StartProxy` | src/helper/service-utils.php:42-55 | The compose file is generated first if missing. The start fails exactly when network boot or compose-up fails. A successful start returns true and has brought the proxy up. |
| `ServiceUtils.NginxProxyCheck` | src/helper/service-utils.php:13-56 | A running proxy is only inspected: the check fails exactly when the trimmed published ports differ from the configured ones, and returns false otherwise. A stopped proxy with a busy port fails with nothing issued. Otherwise the proxy is started, and the check returns true exactly when it started it. |
| `ChangeContainerNames.CacheSites` | migrations/container/20181225063950_service-command_change_global_service_container_names.php:40 | The cache sites are exactly the sites whose cache host is `global-redis`, in site order. |
| `ChangeContainerNames.BuildSteps` | migrations/container/20181225063950_service-command_change_global_service_container_names.php:40-129 | The list starts with one irreversible `update-cache-host-<url>` step per cache site, in order, followed by the six fixed steps. Only backup, create-support and start-renamed have a reverse action. The backup's reverse arguments are its paths swapped, and removal and restart get the running list. The fixed steps' actions are backup (reversed by `restore_yml_file`), regenerate, create support containers (reversed by removing them), remove the old containers, start the renamed ones (reversed by `stop_default_containers`) and remove the support containers. |
| `ChangeContainerNames.FixedSteps` | migrations/container/20181225063950_service-command_change_global_service_container_names.php:68-129 | The six fixed steps in order: backup (reversed by `restore_yml_file`), regenerate, create support containers (reversed by removing them), remove the old `ee-` containers, start the renamed containers (reversed by `stop_default_containers`), remove the support containers. Only these three declare a reverse. |
| `ChangeContainerNames.Up` | migrations/container/20181225063950_service-command_change_global_service_container_names.php:26-133 | A first execution skips and builds nothing. Otherwise the list built from the cache sites and the running old containers is submitted, and `up()` throws exactly when `execute()` fails. |
| `ChangeContainerNames.RunningOldContainers` | migrations/container/20181225063950_service-command_change_global_service_container_names.php:56-63 | The recorded containers are exactly the running ones among the three old names: at most three, in order. |
| `ChangeContainerNames.RemoveGlobalEeContainersAsWritten` | migrations/container/20181225063950_service-command_change_global_service_container_names.php:166-171 | The code as written issues `docker rm -f` with the joined list, even an empty one, and fails exactly when that command fails. |
| `ChangeContainerNames.RemoveWithNothingRunning` | migrations/container/20181225063950_service-command_change_global_service_container_names.php:166-171 | When none of the old containers runs, the step as written still issues `docker rm -f ` with no argument, and, when Docker rejects the argument-less command, fails. |
| `ChangeContainerNames.RemoveGlobalEeContainers` | migrations/container/20181225063950_service-command_change_global_service_container_names.php:166-171 | Corrected: an empty list issues nothing and succeeds. A non-empty list issues one removal naming all containers, and fails exactly when it fails. |
| `ChangeContainerNames.RestoreYmlFile` | migrations/container/20181225063950_service-command_change_global_service_container_names.php:151-157 | The reverse of the backup first restores the file, then starts every global service again with `docker-compose up -d`. |
| `ChangeContainerNames.RestoreUndoesBackup` | migrations/container/20181225063950_service-command_change_global_service_container_names.php:151-157 | Called with the reverse arguments the backup step declares, the restore copies the backup back onto the compose file, the opposite of the backup's own copy. It then restarts from the directory that holds that file. |
| `ChangeContainerNames.StopDefaultContainers` | migrations/container/20181225063950_service-command_change_global_service_container_names.php:178-185 | The reverse of the restart fails exactly when stopping and removing the default containers fails. |
| `ChangeContainerNames.StopCoversStartedServices` | migrations/container/20181225063950_service-command_change_global_service_container_names.php:178-185 | The start-renamed step, acting on the running list, is reversed by `stop_default_containers` with no arguments. That stop runs in the service directory with a compose stop-and-remove naming no service, so it covers the whole compose project. |
| `ChangeContainerNames.StartGlobalServiceContainers` | migrations/container/20181225063950_service-command_change_global_service_container_names.php:194-199 | There is one service start per container, in order, for the `ltrim`-stripped name. |
| `ChangeContainerNames.StartsRenamedServices` | migrations/container/20181225063950_service-command_change_global_service_container_names.php:194-199 | For the running old containers, the i-th start brings up the i-th container's name without its `ee-`, which is one of `global-nginx-proxy`, `global-redis`, `global-db`. |
| `ChangeContainerNames.StartedServicesAreComposed` | migrations/container/20181225063950_service-command_change_global_service_container_names.php:194-199 | Every service the start step brings up is declared by the regenerated compose file, whatever the host, stored password or random password. |
| `ChangeContainerNames.UpdateCacheHost` | migrations/container/20181225063950_service-command_change_global_service_container_names.php:210-226 | A missing site directory fails before any command. If the first command fails, the second is not issued. Success means the directory exists and both commands succeeded, in order. |
| `GlobalCron.BuildSteps` | migrations/container/20230112183952_service-command_global_cron.php:55-105 | The list is exactly five steps in fixed order. Both backups are reverted by `restore_yml_file`, with their paths swapped and the running list appended. Generate and remove have no reverse. Generate gets the filesystem and removal gets the running list. The start takes no arguments and is reverted, with no arguments, by stopping global-cron. |
| `GlobalCron.Up` | migrations/container/20230112183952_service-command_global_cron.php:26-111 | A first execution skips and builds nothing. Otherwise nothing runs before the steps, the five steps for the running old container are submitted, and `up()` throws exactly when `execute()` fails. |
| `GlobalCron.RunningCronContainers` | migrations/container/20230112183952_service-command_global_cron.php:43-50 | The running list is `[ee-cron-scheduler]` when that container runs, and empty otherwise. |
| `GlobalCron.ServicesArgAppend` | migrations/container/20230112183952_service-command_global_cron.php:138-141 | The services argument for two lists in a row is their two arguments in a row. |
| `GlobalCron.ServicesArgSnoc` | migrations/container/20230112183952_service-command_global_cron.php:138-141 | Adding one more container appends exactly its `ltrim`-stripped name and one space to the argument built so far. |
| `GlobalCron.ServicesArgLength` | migrations/container/20230112183952_service-command_global_cron.php:138-141 | A length fact only: the argument is as long as the stripped names together plus one character per container. |
| `GlobalCron.RestoreYmlFile` | migrations/container/20230112183952_service-command_global_cron.php:130-146 | The file is always restored first. An empty list stops there and succeeds. Otherwise one compose-up with all services is issued, and the restore fails exactly when it fails. |
| `GlobalCron.RestoreRestartsCronScheduler` | migrations/container/20230112183952_service-command_global_cron.php:138-143 | For the old cron container the restore restarts service `cron-scheduler`. |
| `GlobalCron.RemoveOldCronContainers` | migrations/container/20230112183952_service-command_global_cron.php:155-160 | A blank joined list (as `empty(trim(...))` sees it) issues nothing. Otherwise one removal is issued, and the step fails only when it fails. |
| `GlobalCron.RemoveOnlyWhenCronWasRunning` | migrations/container/20230112183952_service-command_global_cron.php:155-160 | Of the two lists `up()` can pass, the empty one issues nothing and the other removes `ee-cron-scheduler`. |
| `GlobalCron.StopDefaultContainers` | migrations/container/20230112183952_service-command_global_cron.php:167-174 | Stopping global-cron is issued in the service directory, and the step fails exactly when that fails. |
| `GlobalCron.StartGlobalServiceContainer` | migrations/container/20230112183952_service-command_global_cron.php:183-187 | The cron configuration is refreshed before the global-cron service is started, and the start is the last thing done. |
| `GlobalCron.StopUndoesStart` | migrations/container/20230112183952_service-command_global_cron.php:167-187 | The start-global-cron step is reversed by `stop_default_containers`. That stop runs in the service directory and names exactly the service the start brings up (`global-cron`), and no other. |
| `AddCronService.BuildSteps` | migrations/container/20190110064350_service-command_add_cron_global_service.php:46-87 | The list has 2 steps, or 4 when the old container runs. The backup is reverted by the same copy with its paths swapped. Enabling global cron (`global_service_up`) comes before removing the old container (`remove_old_cron_container`), and nothing else has a reverse action. |
| `AddCronService.Up` | migrations/container/20190110064350_service-command_add_cron_global_service.php:27-92 | A first execution skips and builds nothing. Otherwise nothing runs before the steps, the list size follows the old container's status, and `up()` throws exactly when `execute()` fails. |
| `AddCronService.RemoveOldCronContainer` | migrations/container/20190110064350_service-command_add_cron_global_service.php:102-107 | It removes `ee-cron-scheduler` and fails exactly when that command fails. |
| `AddCronService.RemovesTheContainerFoundRunning` | migrations/container/20190110064350_service-command_add_cron_global_service.php:41-89 | A removal step is scheduled exactly when `ee-cron-scheduler`, the container whose status `up()` read, is running. The removal acts on that same container. |
| `AddEeConfForDb.ComputeSkip` | migrations/container/20181121091115_service-command_add_new_ee_conf_for_db.php:17-32 | The loop with its early `break` decides skip exactly as the rule: first execution, no sites, or no site on `global-db`. |
| `AddEeConfForDb.Up` | migrations/container/20181121091115_service-command_add_new_ee_conf_for_db.php:39-76 | It skips exactly under that rule. Otherwise the backup directory is made, then the file is downloaded into it, and exactly one irreversible step copies it from backup to live. `up()` throws exactly when `execute()` fails. |
| `Rc1DbFix.Skips` | migrations/container/20181203191120_service-command_rc1_db_fix.php:13-41 | The migration skips on a first execution, when a running database accepts its password, or when there is no compose file. Nothing clears a skip. |
| `Rc1DbFix.PollHealth` | migrations/container/20181203191120_service-command_rc1_db_fix.php:55-64 | The check runs between 1 and 62 times and stops right after the first success. It fails every earlier time, and without a success it always makes all 62 checks. |
| `Rc1DbFix.Up` | migrations/container/20181203191120_service-command_rc1_db_fix.php:25-73 | A skip issues only the health probe. Otherwise it extracts the password, restarts without grants, polls, resets the trimmed password and restarts the regular container, in that order. Whatever the poll saw, such a run ends with the reset and `docker-compose up -d global-db`. |
| `Rc1DbFix.ResetScriptRoundTrip` | migrations/container/20181203191120_service-command_rc1_db_fix.php:66 | The reset script is the fixed text around the password, and the password reads back out of it unchanged. |
| `Rc1DbFix.Down` | migrations/container/20181203191120_service-command_rc1_db_fix.php:80-84 | `down()` enters the service directory, then issues the same two commands `up()` ends with. |
| `SaveDbPass.Up` | migrations/container/20181204100620_service-command_save_global_db_pass.php:24-42 | It skips only on a first execution without a compose file, and an existing compose file overrides the first-execution skip. When it runs, it stores the trimmed extract. |
| `SaveDbPass.StoresTrimmedPassword` | migrations/container/20181204100620_service-command_save_global_db_pass.php:26-41 | When skipped nothing is stored. Otherwise the option holds the trimmed extract. |
| `Snapshot.ToRestart` | migrations/container/20211611191554_service-command_refresh_compose.php:51-55 | A service is restarted exactly when its recorded state is not PHP-empty. |
| `Snapshot.RestartCommandInjective` | migrations/container/20211611191554_service-command_refresh_compose.php:53 | Distinct services get distinct restart commands. |
| `Snapshot.RestartEffectsExactly` | migrations/container/20211611191554_service-command_refresh_compose.php:51-55 | A restart command is issued for a service exactly when the snapshot marks it running. |
| `Snapshot.RestartKeepsOrder` | migrations/container/20211611191554_service-command_refresh_compose.php:41-55 | The restarted services are a sublist of the whitelist, in whitelist order. |
| `Snapshot.RestartedIffWasRunning` | migrations/container/20211611191554_service-command_refresh_compose.php:38-55 | A service is restarted exactly when it is whitelisted and its `ps -q` output is not PHP-empty. Nothing outside the whitelist is restarted. |
| `Snapshot.SnapshotRegenerateRestart` | migrations/container/20211611191554_service-command_refresh_compose.php:41-55 | The snapshot launches come first, then what the caller does in between. Regeneration follows every launch and precedes every restart. |
| `Snapshot.RestartsExactlyRunning` | migrations/container/20201103184813_service-command_remove_sysctl.php:46-59 | After any prefix that issues no restart, exactly the whitelisted services with non-empty state are restarted. |
| `RefreshCompose.Up` | migrations/container/20211611191554_service-command_refresh_compose.php:23-56 | A first execution does nothing. Otherwise: networks, then one snapshot launch per service of [nginx-proxy, db, redis] in order, then regeneration, then the restarts. |
| `RefreshCompose.RestartsExactlyWhatRan` | migrations/container/20211611191554_service-command_refresh_compose.php:38-55 | A global service is restarted exactly when it is one of the three and was running. |
| `RemoveSysctl.Up` | migrations/container/20201103184813_service-command_remove_sysctl.php:27-60 | A first execution does nothing. Otherwise: one snapshot launch per service of [nginx-proxy, db, redis, newrelic-daemon], then regeneration, then the restarts. |
| `RemoveSysctl.RestartsExactlyWhatRan` | migrations/container/20201103184813_service-command_remove_sysctl.php:37-59 | A global service is restarted exactly when it is one of the four and was running. |
| `AddSubnetIp.KindOf` | migrations/container/20210802191554_service-command_add_subnet_ip.php:38-40 | `html`, `php` and `wp` map to HTML, PHP and WordPress, in both directions. Any other type has no class. |
| `AddSubnetIp.DisableSites` | migrations/container/20210802191554_service-command_add_subnet_ip.php:37-50 | The loop halts exactly when some site, enabled or not, has an unknown type. Otherwise it issues one disable per recorded site, matching the record. |
| `AddSubnetIp.DisabledAreTheEnabledSites` | migrations/container/20210802191554_service-command_add_subnet_ip.php:42-49 | A completed loop records exactly the enabled sites, each with its type. |
| `AddSubnetIp.HaltLeavesPrefixDisabled` | migrations/container/20210802191554_service-command_add_subnet_ip.php:37-50 | On a halt, the disables issued are those of the sites before the unknown one. |
| `AddSubnetIp.Rebuild` | migrations/container/20210802191554_service-command_add_subnet_ip.php:52-79 | The order is: networks, the snapshot of [nginx-proxy, db, redis], compose down and removal of both networks, regeneration, then the restarts. |
| `AddSubnetIp.RebuildRestartsExactly` | migrations/container/20210802191554_service-command_add_subnet_ip.php:57-79 | The rebuild restarts a service exactly when it is one of nginx-proxy, db and redis and its `ps -q` output was non-empty. |
| `AddSubnetIp.RebuildTouchesNoSite` | migrations/container/20210802191554_service-command_add_subnet_ip.php:52-79 | The rebuild neither disables nor enables a site. |
| `AddSubnetIp.Up` | migrations/container/20210802191554_service-command_add_subnet_ip.php:25-87 | A first execution does nothing. An unknown site type halts with the disables issued so far. Otherwise the disables, the rebuild and the re-enables of the recorded sites follow in that order. |
| `AddSubnetIp.RestartsExactlyWhatRan` | migrations/container/20210802191554_service-command_add_subnet_ip.php:25-87 | A run of `up()` restarts a global service exactly when no site had an unknown type, the service is one of the three, and its `ps -q` output was non-empty. A halted run restarts nothing. |
| `AddSubnetIp.SitesAreDownDuringRegeneration` | migrations/container/20210802191554_service-command_add_subnet_ip.php:36-84 | Every disable comes before regeneration and every enable after it. |
| `AddSubnetIp.DisabledSitesAreReEnabled` | migrations/container/20210802191554_service-command_add_subnet_ip.php:42-84 | Every site that is disabled is re-enabled later with the same type. |

## Left out

- The revertable step processor (`EE\RevertableStepProcessor`) and the migration base class are not part of this model. Steps are data, the result of `execute()` is an input, and no rollback order is claimed. A first execution is an input, and `skip_this_migration` starts false.
- Docker, compose, shell, `chdir` and filesystem calls are not run. Each is an `Effect` in a trace, and its outcome is an input predicate or string.
  - `EE::exec` results the code ignores, such as the restarts, are ignored in the model too.
  - The exec obfuscation arguments are not modelled.
- Error messages are `Failure` cases, one per message, not text. `EE::debug` and `EE::log` output, and `sleep(1)` in the health poll, carry no state and are left out.
- The `cat | grep | cut` password extraction is shell semantics. Its stdout is an opaque input.
- Mustache rendering, `get_mounting_volume_array`, `random_password`, `get_image_versions`, `get_config_value`, `get_curl_info`, `http_request` and `posix_geteuid`/`posix_getegid` are foreign calls. Their results are inputs, and a service holds its raw volume table rather than the mounting array.
- `ServiceUtils.NginxProxyCheck`: the configured ports are assumed to be strings. The source compares them with PHP's strict `!==` (service-utils.php:24), so a port that `get_config_value` returned as an int would always fail the running-proxy check; the model cannot express that case.
- `ServiceUtils.GenerateGlobalComposeYml`: stops at the data handed to the template. The rendered text and the file write are not modelled, because the renderer is foreign.
- Site-type `enable`/`disable`, `ensure_global_network_initialized`, `GlobalContainers::*`, `update_cron_config`, `docker_compose_up`, `boot_container` and `backup_restore` are not shown. Only their calls and order are kept.
- `docker_compose_with_custom()` is not shown. Its value is an input.
- src/helper/service-utills.php is an older, conflicting copy of the same functions and is not part of this model.
- src/Service_Command.php is not part of this model: it holds command-line wrappers only.
- service-command.php supplies only the constants in `Globals`.
- The configure-my-cnf migration (filesystem unlinks) and the add-newrelic-volume migration (one volume creation behind a trivial skip) are not part of this model.
- `Rc1DbFix.Up`: what `docker-compose rm`, `run` and the final restart return is ignored by the code, so the model does not branch on it.

## Findings

| source | as written | input that shows it | evidently intended | confidence | as-written member | corrected member |
|---|---|---|---|---|---|---|
| migrations/container/20181225063950_service-command_change_global_service_container_names.php:166-171 | `remove_global_ee_containers` issues `docker rm -f <joined list>` with no check that the list is non-empty. | No old `ee-` container running: the command is `docker rm -f ` with no argument. Docker rejects it, so the step fails and `up()` throws. | Issue nothing for an empty list, as the later `remove_old_cron_containers` does (global_cron.php:157). | medium, not executed | `ChangeContainerNames.RemoveGlobalEeContainersAsWritten` | `ChangeContainerNames.RemoveGlobalEeContainers` |
