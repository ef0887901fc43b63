/**
 The migration that installs a new MariaDB configuration file for the global
 database (migrations/container/20181121091115_service-command_add_new_ee_conf_for_db.php).

 It applies only when this is not a first execution and some site uses the
 global database. It then downloads the file into the backup directory and
 submits a single step copying it into place.
 */
module AddEeConfForDb {
  import opened Env
  import opened Steps
  import Php
  import opened Globals

  /** A site uses the global database (the emptiness test is PHP's). */
  predicate UsesGlobalDb(site: Site)
  {
    !Php.Empty(site.dbHost) && site.dbHost == GlobalDb
  }

  /** The skip rule, stated without the loop: no site uses the global database. */
  predicate SkipRule(firstExecution: bool, sites: seq<Site>)
  {
    firstExecution || |sites| == 0 || !(exists i :: 0 <= i < |sites| && sites[i].dbHost == GlobalDb)
  }

  /**
   The constructor's skip computation: the loop stops at the first site on
   the global database, which does not change the answer.
   */
  method ComputeSkip(firstExecution: bool, sites: seq<Site>) returns (skip: bool)
    ensures skip <==> SkipRule(firstExecution, sites)
  {
    if firstExecution || |sites| == 0 {
      skip := true;
    } else {
      skip := true;
      var i := 0;
      while i < |sites|
        invariant 0 <= i <= |sites|
        invariant skip
        invariant forall j :: 0 <= j < i ==> sites[j].dbHost != GlobalDb
      {
        if UsesGlobalDb(sites[i]) {
          skip := false;
          break;
        }
        i := i + 1;
      }
    }
  }

  function ConfPath(rootDir: string): string
  {
    ServiceDir(rootDir) + "/mariadb/conf/conf.d/ee.cnf"
  }

  function BackupConfPath(backupDir: string): string
  {
    backupDir + "/mariadb/conf/conf.d/ee.cnf"
  }

  const DownloadUrl := "https://raw.githubusercontent.com/EasyEngine/dockerfiles/v4.0.0/mariadb/ee.cnf"

  /**
   `up()`: nothing when skipped; otherwise the download, then exactly one
   irreversible step copying the downloaded file over the live one.
   */
  function Up(firstExecution: bool, sites: seq<Site>, rootDir: string, backupDir: string, executeOk: bool): (u: Up)
    ensures u.Skipped? <==> firstExecution || |sites| == 0 || forall i :: 0 <= i < |sites| ==> sites[i].dbHost != GlobalDb
    ensures u.Submitted? ==> |u.steps| == 1
    ensures u.Submitted? ==>
              && u.steps[0].name == "add-new-ee-conf-to-global-db"
              && u.steps[0].forward == BackupRestore && u.steps[0].reverse.None?
              && u.steps[0].args == Some([PathArg(BackupConfPath(backupDir)), PathArg(ConfPath(rootDir))])
    // the directory is made before the file is downloaded into it
    ensures u.Submitted? ==> |u.prelude| == 2 && u.prelude[0] == MakeDir(backupDir + "/mariadb/conf/conf.d")
                             && u.prelude[1] == Download(DownloadUrl, BackupConfPath(backupDir))
    ensures u.Submitted? ==> (u.threw <==> !executeOk)
  {
    if SkipRule(firstExecution, sites) then Skipped
    else
      var backup := BackupConfPath(backupDir);
      Submit(
        [MakeDir(backupDir + "/mariadb/conf/conf.d"), Download(DownloadUrl, backup)],
        [Step("add-new-ee-conf-to-global-db", BackupRestore, None,
              Some([PathArg(backup), PathArg(ConfPath(rootDir))]), None)],
        executeOk)
  }
}
