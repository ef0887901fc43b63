/**
 The migration that recreates the global networks with subnet addresses
 (migrations/container/20210802191554_service-command_add_subnet_ip.php).

 Skipped on a first execution. Otherwise every enabled site is disabled, the
 running state of the global services is recorded, the services and both
 global networks are taken down, the compose file is regenerated, the
 recorded services are started again and the disabled sites re-enabled. A
 site of unknown type stops the migration where it stands: the sites
 disabled before it stay disabled.
 */
module AddSubnetIp {
  import opened Env
  import opened Globals
  import opened Snapshot
  import Php

  const Whitelist := ["nginx-proxy", "db", "redis"]

  /** The site-type class chosen from the stored type string. */
  function KindOf(siteType: string): (k: Option<SiteType>)
    ensures k == Some(HTML) <==> siteType == "html"
    ensures k == Some(PHP) <==> siteType == "php"
    ensures k == Some(WordPress) <==> siteType == "wp"
  {
    if siteType == "html" then Some(HTML)
    else if siteType == "php" then Some(PHP)
    else if siteType == "wp" then Some(WordPress)
    else None
  }

  /** An entry of `$enabled_sites`: the type object and the site's URL. */
  datatype Disabled = Disabled(kind: SiteType, url: string)

  /** Index of the first site of unknown type, or `|sites|` when there is none. */
  function FirstUnknown(sites: seq<Site>): (j: nat)
    ensures j <= |sites|
    ensures j < |sites| ==> KindOf(sites[j].siteType).None?
    ensures forall i :: 0 <= i < j ==> KindOf(sites[i].siteType).Some?
    decreases |sites|
  {
    if |sites| == 0 || KindOf(sites[0].siteType).None? then 0
    else 1 + FirstUnknown(sites[1..])
  }

  /**
   The disabling loop. The type is resolved before the enabled flag is
   looked at, so a disabled site of unknown type halts the loop too.
   */
  function DisableSites(sites: seq<Site>): (r: Run<seq<Disabled>>)
    ensures r.Halted? <==> FirstUnknown(sites) < |sites|
    ensures r.Halted? ==> r.failure == UnknownSiteType
    ensures r.Done? ==> |r.value| == |r.effects|
    ensures r.Done? ==> forall i :: 0 <= i < |r.value| ==> r.effects[i] == DisableSite(r.value[i].kind, r.value[i].url)
    decreases |sites|
  {
    if |sites| == 0 then Done([], [])
    else
      match KindOf(sites[0].siteType)
      case None => Halted([], UnknownSiteType)
      case Some(k) =>
        var s := sites[0];
        var here := if s.enabled then [DisableSite(k, s.url)] else [];
        var recorded := if s.enabled then [Disabled(k, s.url)] else [];
        match DisableSites(sites[1..])
        case Done(e, v) =>
          var v' := recorded + v;
          var e' := here + e;
          assert forall i :: 0 <= i < |v'| ==> e'[i] == DisableSite(v'[i].kind, v'[i].url) by {
            forall i | 0 <= i < |v'|
              ensures e'[i] == DisableSite(v'[i].kind, v'[i].url)
            {
              if s.enabled && i > 0 {
                assert v'[i] == v[i - 1] && e'[i] == e[i - 1];
              }
            }
          }
          Done(e', v')
        case Halted(e, m) => Halted(here + e, m)
  }

  /** Whether site `s` is one the loop disables and records as `d`. */
  predicate DisablesAs(s: Site, d: Disabled)
  {
    s.enabled && KindOf(s.siteType) == Some(d.kind) && s.url == d.url
  }

  /** When the loop completes, it records exactly the enabled sites, each with its type. */
  lemma {:induction false} DisabledAreTheEnabledSites(sites: seq<Site>, d: Disabled)
    requires DisableSites(sites).Done?
    ensures d in DisableSites(sites).value <==> exists i :: 0 <= i < |sites| && DisablesAs(sites[i], d)
    decreases |sites|
  {
    if |sites| > 0 {
      DisabledAreTheEnabledSites(sites[1..], d);
      if exists i :: 1 <= i < |sites| && DisablesAs(sites[i], d) {
        var i :| 1 <= i < |sites| && DisablesAs(sites[i], d);
        assert sites[1..][i - 1] == sites[i];
      }
      if exists i :: 0 <= i < |sites| - 1 && DisablesAs(sites[1..][i], d) {
        var i :| 0 <= i < |sites| - 1 && DisablesAs(sites[1..][i], d);
        assert sites[1..][i] == sites[i + 1];
      }
    }
  }

  /** The sites disabled before a halt are those of the known-type prefix, and they stay disabled. */
  lemma {:induction false} HaltLeavesPrefixDisabled(sites: seq<Site>)
    requires FirstUnknown(sites) < |sites|
    ensures DisableSites(sites).effects == DisableSites(sites[..FirstUnknown(sites)]).effects
    decreases |sites|
  {
    var j := FirstUnknown(sites);
    if j > 0 {
      assert sites[..j][0] == sites[0];
      assert sites[..j][1..] == sites[1..][..j - 1];
      HaltLeavesPrefixDisabled(sites[1..]);
    }
  }

  /** The re-enabling loop: the recorded sites, in the order they were disabled. */
  function EnableSites(recorded: seq<Disabled>): (r: seq<Effect>)
    ensures |r| == |recorded|
    ensures forall i :: 0 <= i < |r| ==> r[i] == EnableSite(recorded[i].kind, recorded[i].url)
  {
    seq(|recorded|, i requires 0 <= i < |recorded| => EnableSite(recorded[i].kind, recorded[i].url))
  }

  /** What `up()` does between the snapshot and the regeneration: everything down. */
  function TearDown(composeCmd: string): seq<Effect>
  {
    [Launch(composeCmd + " down"),
     Launch("docker network rm " + GlobalFrontendNetwork),
     Launch("docker network rm " + GlobalBackendNetwork)]
  }

  /**
   The part of `up()` between disabling and re-enabling the sites: ensure
   the networks, record which services run, take everything down,
   regenerate, restart.
   */
  function Rebuild(rootDir: string, ps: string -> string, composeCmd: string): (m: seq<Effect>)
    ensures |m| == 9 + |ToRestart(TakeSnapshot(Whitelist, ps))|
    ensures m[..2] == [EnsureNetworks, Chdir(ServiceDir(rootDir))]
    ensures m[2..5] == SnapshotLaunches(Whitelist)
    ensures m[5..8] == TearDown(composeCmd)
    ensures m[8] == GenerateCompose
    ensures m[9..] == RestartEffects(TakeSnapshot(Whitelist, ps), composeCmd)
  {
    var prefix := [EnsureNetworks, Chdir(ServiceDir(rootDir))];
    LayoutAfter(prefix, Whitelist, ps, TearDown(composeCmd), composeCmd);
    prefix + SnapshotRegenerateRestart(Whitelist, ps, TearDown(composeCmd), composeCmd)
  }

  /** The rebuild never disables or enables a site. */
  lemma RebuildTouchesNoSite(rootDir: string, ps: string -> string, composeCmd: string)
    ensures var m := Rebuild(rootDir, ps, composeCmd);
            forall i :: 0 <= i < |m| ==> !m[i].DisableSite? && !m[i].EnableSite?
  {
    var m := Rebuild(rootDir, ps, composeCmd);
    var rs := RestartEffects(TakeSnapshot(Whitelist, ps), composeCmd);
    forall i | 0 <= i < |m|
      ensures !m[i].DisableSite? && !m[i].EnableSite?
    {
      if 2 <= i < 5 {
        assert m[i] == m[2..5][i - 2] == SnapshotLaunches(Whitelist)[i - 2];
      } else if 5 <= i < 8 {
        assert m[i] == m[5..8][i - 5] == TearDown(composeCmd)[i - 5];
      } else if i > 8 {
        assert m[i] == m[9..][i - 9] == rs[i - 9];
      }
    }
  }

  /**
   `up()`; `ps` answers each `docker-compose ps -q`, `composeCmd` is the
   compose command. `down()` does nothing.
   */
  function Up(firstExecution: bool, sites: seq<Site>, rootDir: string, ps: string -> string, composeCmd: string): (r: Run<()>)
    ensures firstExecution ==> r == Done([], ())
    ensures !firstExecution ==> (r.Halted? <==> FirstUnknown(sites) < |sites|)
    ensures !firstExecution && r.Halted? ==> r == Halted(DisableSites(sites).effects, UnknownSiteType)
    ensures !firstExecution && r.Done? ==>
              var disabled := DisableSites(sites);
              r.effects == disabled.effects + Rebuild(rootDir, ps, composeCmd) + EnableSites(disabled.value)
  {
    if firstExecution then Done([], ())
    else
      match DisableSites(sites)
      case Halted(e, m) => Halted(e, m)
      case Done(e, v) => Done(e + Rebuild(rootDir, ps, composeCmd) + EnableSites(v), ())
  }

  /**
   In a trace made of disables, then effects touching no site, then enables,
   the disables are exactly the first part and the enables the last.
   */
  lemma SiteEffectsAtTheEnds(d: seq<Effect>, m: seq<Effect>, en: seq<Effect>)
    requires forall i :: 0 <= i < |d| ==> d[i].DisableSite?
    requires forall i :: 0 <= i < |m| ==> !m[i].DisableSite? && !m[i].EnableSite?
    requires forall i :: 0 <= i < |en| ==> en[i].EnableSite?
    ensures forall i :: 0 <= i < |d + m + en| && (d + m + en)[i].DisableSite? ==> i < |d|
    ensures forall i :: 0 <= i < |d + m + en| && (d + m + en)[i].EnableSite? ==> |d| + |m| <= i
  {
    var r := d + m + en;
    assert forall i :: |d| <= i < |d| + |m| ==> r[i] == m[i - |d|];
    assert forall i :: |d| + |m| <= i < |r| ==> r[i] == en[i - |d| - |m|];
  }

  /**
   Every site is disabled before the compose file is regenerated and
   re-enabled after it, and no site is disabled at any other point.
   */
  lemma SitesAreDownDuringRegeneration(sites: seq<Site>, rootDir: string, ps: string -> string, composeCmd: string)
    requires Up(false, sites, rootDir, ps, composeCmd).Done?
    ensures var r := Up(false, sites, rootDir, ps, composeCmd).effects;
            var g := |DisableSites(sites).effects| + 8;
            && g < |r| && r[g] == GenerateCompose
            && (forall i :: 0 <= i < |r| && r[i].DisableSite? ==> i < g)
            && (forall i :: 0 <= i < |r| && r[i].EnableSite? ==> g < i)
  {
    var d := DisableSites(sites);
    var m := Rebuild(rootDir, ps, composeCmd);
    var en := EnableSites(d.value);
    RebuildTouchesNoSite(rootDir, ps, composeCmd);
    SiteEffectsAtTheEnds(d.effects, m, en);
    assert (d.effects + m + en)[|d.effects| + 8] == m[8];
  }

  /** In such a trace, each disable recorded in `v` has its enable at the end. */
  lemma {:induction false} DisableHasMatchingEnable(v: seq<Disabled>, d: seq<Effect>, m: seq<Effect>, kind: SiteType, url: string)
    requires |d| == |v|
    requires forall i :: 0 <= i < |v| ==> d[i] == DisableSite(v[i].kind, v[i].url)
    requires forall i :: 0 <= i < |m| ==> !m[i].DisableSite? && !m[i].EnableSite?
    requires DisableSite(kind, url) in d + m + EnableSites(v)
    ensures EnableSite(kind, url) in d + m + EnableSites(v)
  {
    var en := EnableSites(v);
    var r := d + m + en;
    SiteEffectsAtTheEnds(d, m, en);
    var k :| 0 <= k < |r| && r[k] == DisableSite(kind, url);
    assert r[k] == d[k];
    assert r[|d| + |m| + k] == en[k];
  }

  /** Every site the migration disables is re-enabled afterwards, with the same type. */
  lemma DisabledSitesAreReEnabled(sites: seq<Site>, rootDir: string, ps: string -> string, composeCmd: string,
                                  kind: SiteType, url: string)
    requires Up(false, sites, rootDir, ps, composeCmd).Done?
    requires DisableSite(kind, url) in Up(false, sites, rootDir, ps, composeCmd).effects
    ensures EnableSite(kind, url) in Up(false, sites, rootDir, ps, composeCmd).effects
  {
    var d := DisableSites(sites);
    RebuildTouchesNoSite(rootDir, ps, composeCmd);
    DisableHasMatchingEnable(d.value, d.effects, Rebuild(rootDir, ps, composeCmd), kind, url);
  }

  /** The disabling loop issues nothing but site disables, whether it completes or halts. */
  lemma {:induction false} DisableEffectsOnly(sites: seq<Site>)
    ensures forall e :: e in DisableSites(sites).effects ==> e.DisableSite?
    decreases |sites|
  {
    if |sites| > 0 && KindOf(sites[0].siteType).Some? {
      DisableEffectsOnly(sites[1..]);
    }
  }

  /** The rebuild restarts a service exactly when it is one of the three and its `ps -q` output was non-empty. */
  lemma RebuildRestartsExactly(rootDir: string, ps: string -> string, composeCmd: string, service: string)
    ensures (Exec(RestartCommand(composeCmd, service)) in Rebuild(rootDir, ps, composeCmd))
              <==> service in Whitelist && !Php.Empty(ps(PsCommand(service)))
  {
    var prefix := [EnsureNetworks, Chdir(ServiceDir(rootDir))];
    assert Rebuild(rootDir, ps, composeCmd) == prefix + SnapshotRegenerateRestart(Whitelist, ps, TearDown(composeCmd), composeCmd);
    RestartsExactlyRunning(prefix, Whitelist, ps, TearDown(composeCmd), composeCmd, service);
  }

  /**
   A global service is restarted exactly when the loop met no site of
   unknown type, the service is one of the three, and it had a container
   running when the snapshot was taken.
   */
  lemma RestartsExactlyWhatRan(sites: seq<Site>, rootDir: string, ps: string -> string, composeCmd: string,
                               service: string)
    ensures (Exec(RestartCommand(composeCmd, service)) in Up(false, sites, rootDir, ps, composeCmd).effects)
              <==> FirstUnknown(sites) == |sites| && service in Whitelist && !Php.Empty(ps(PsCommand(service)))
  {
    var cmd := Exec(RestartCommand(composeCmd, service));
    var d := DisableSites(sites);
    DisableEffectsOnly(sites);
    assert cmd !in d.effects;
    if d.Done? {
      var m := Rebuild(rootDir, ps, composeCmd);
      var en := EnableSites(d.value);
      RebuildRestartsExactly(rootDir, ps, composeCmd, service);
      assert cmd !in en;
      assert Up(false, sites, rootDir, ps, composeCmd).effects == d.effects + m + en;
    }
  }
}
