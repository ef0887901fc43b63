/**
 The snapshot-regenerate-restart pattern shared by the refresh-compose,
 remove-sysctl and add-subnet-ip migrations: record, per whitelisted
 service, the output of `docker-compose ps -q global-<service>`, regenerate
 the compose file, then start again exactly the services whose recorded
 output PHP does not consider empty, in whitelist order.
 */
module Snapshot {
  import opened Env
  import Php
  import opened Steps

  /** One entry of the snapshot: the service and the `ps -q` output seen for it. */
  datatype ServiceState = ServiceState(name: string, state: string)

  function PsCommand(service: string): string
  {
    "docker-compose ps -q global-" + service
  }

  /** The restart command; `composeCmd` is what `docker_compose_with_custom()` returns. */
  function RestartCommand(composeCmd: string, service: string): string
  {
    composeCmd + " up -d global-" + service
  }

  /** One snapshot entry per whitelisted service, in whitelist order. */
  function TakeSnapshot(whitelist: seq<string>, ps: string -> string): (snap: seq<ServiceState>)
    ensures |snap| == |whitelist|
    ensures forall i :: 0 <= i < |snap| ==> snap[i] == ServiceState(whitelist[i], ps(PsCommand(whitelist[i])))
  {
    seq(|whitelist|, i requires 0 <= i < |whitelist| => ServiceState(whitelist[i], ps(PsCommand(whitelist[i]))))
  }

  /** The launches that take the snapshot. */
  function SnapshotLaunches(whitelist: seq<string>): (r: seq<Effect>)
    ensures |r| == |whitelist|
    ensures forall i :: 0 <= i < |r| ==> r[i] == Launch(PsCommand(whitelist[i]))
  {
    seq(|whitelist|, i requires 0 <= i < |whitelist| => Launch(PsCommand(whitelist[i])))
  }

  /** The services of a snapshot with a non-empty state, in snapshot order. */
  function ToRestart(snap: seq<ServiceState>): (r: seq<string>)
    ensures forall s :: s in r <==> exists i :: 0 <= i < |snap| && snap[i].name == s && !Php.Empty(snap[i].state)
    decreases |snap|
  {
    if |snap| == 0 then []
    else
      var rest := ToRestart(snap[1..]);
      assert forall i :: 1 <= i < |snap| ==> snap[i] == snap[1..][i - 1];
      if Php.Empty(snap[0].state) then rest else [snap[0].name] + rest
  }

  /** The restart commands for a snapshot. */
  function RestartEffects(snap: seq<ServiceState>, composeCmd: string): (r: seq<Effect>)
    ensures |r| == |ToRestart(snap)|
    ensures forall i :: 0 <= i < |r| ==> r[i] == Exec(RestartCommand(composeCmd, ToRestart(snap)[i]))
  {
    var names := ToRestart(snap);
    seq(|names|, i requires 0 <= i < |names| => Exec(RestartCommand(composeCmd, names[i])))
  }

  /** Distinct services give distinct restart commands. */
  lemma RestartCommandInjective(composeCmd: string, a: string, b: string)
    requires RestartCommand(composeCmd, a) == RestartCommand(composeCmd, b)
    ensures a == b
  {
    var p := composeCmd + " up -d global-";
    assert RestartCommand(composeCmd, a) == p + a;
    assert (p + a)[|p|..] == a;
    assert (p + b)[|p|..] == b;
  }

  /** The restart commands issued are exactly those of the services the snapshot marks running. */
  lemma RestartEffectsExactly(snap: seq<ServiceState>, composeCmd: string, service: string)
    ensures Exec(RestartCommand(composeCmd, service)) in RestartEffects(snap, composeCmd) <==> service in ToRestart(snap)
  {
    var r := RestartEffects(snap, composeCmd);
    var names := ToRestart(snap);
    if Exec(RestartCommand(composeCmd, service)) in r {
      var i :| 0 <= i < |r| && r[i] == Exec(RestartCommand(composeCmd, service));
      RestartCommandInjective(composeCmd, service, names[i]);
    }
    if service in names {
      var i :| 0 <= i < |names| && names[i] == service;
      assert r[i] == Exec(RestartCommand(composeCmd, service));
    }
  }

  /** Restarting keeps the order of the snapshot: the restarted list is a sublist of it. */
  lemma {:induction false} RestartKeepsOrder(whitelist: seq<string>, ps: string -> string)
    ensures IsSubsequence(ToRestart(TakeSnapshot(whitelist, ps)), whitelist)
    decreases |whitelist|
  {
    if |whitelist| > 0 {
      var snap := TakeSnapshot(whitelist, ps);
      assert snap[1..] == TakeSnapshot(whitelist[1..], ps);
      RestartKeepsOrder(whitelist[1..], ps);
      var rest := ToRestart(snap[1..]);
      if !Php.Empty(snap[0].state) {
        var r := [whitelist[0]] + rest;
        assert r[0] == whitelist[0] && r[1..] == rest;
      } else {
        SubsequenceOfTail(rest, whitelist);
      }
    }
  }

  lemma {:induction false} SubsequenceOfTail<T>(sub: seq<T>, s: seq<T>)
    requires |s| > 0 && IsSubsequence(sub, s[1..])
    ensures IsSubsequence(sub, s)
    decreases |s|, 0
  {
    if |sub| > 0 && sub[0] == s[0] {
      SubsequenceDropHead(sub, s[1..]);
    }
  }

  lemma {:induction false} SubsequenceDropHead<T>(sub: seq<T>, s: seq<T>)
    requires |sub| > 0 && IsSubsequence(sub, s)
    ensures IsSubsequence(sub[1..], s)
    decreases |s|, 1
  {
    if sub[0] == s[0] {
      if |sub| > 1 {
        SubsequenceOfTail(sub[1..], s);
      }
    } else {
      SubsequenceDropHead(sub, s[1..]);
      if |sub| > 1 {
        SubsequenceOfTail(sub[1..], s);
      }
    }
  }

  /**
   A service is restarted exactly when it is whitelisted and its recorded
   state is non-empty; nothing outside the whitelist is ever restarted.
   */
  lemma RestartedIffWasRunning(whitelist: seq<string>, ps: string -> string, service: string)
    ensures service in ToRestart(TakeSnapshot(whitelist, ps)) <==>
              service in whitelist && !Php.Empty(ps(PsCommand(service)))
  {
    var snap := TakeSnapshot(whitelist, ps);
    if service in whitelist && !Php.Empty(ps(PsCommand(service))) {
      var i :| 0 <= i < |whitelist| && whitelist[i] == service;
      assert snap[i].name == service && !Php.Empty(snap[i].state);
    }
  }

  /**
   The whole pattern: snapshot launches, anything the caller does in between,
   regeneration, restarts. Regeneration comes after every snapshot launch and
   before every restart.
   */
  function SnapshotRegenerateRestart(whitelist: seq<string>, ps: string -> string,
                                     between: seq<Effect>, composeCmd: string): (r: seq<Effect>)
    ensures var g := |whitelist| + |between|;
      && |r| == g + 1 + |ToRestart(TakeSnapshot(whitelist, ps))|
      && r[g] == GenerateCompose
      && r[..|whitelist|] == SnapshotLaunches(whitelist)
      && r[g + 1..] == RestartEffects(TakeSnapshot(whitelist, ps), composeCmd)
  {
    var launches := SnapshotLaunches(whitelist);
    var restarts := RestartEffects(TakeSnapshot(whitelist, ps), composeCmd);
    var r := launches + between + [GenerateCompose] + restarts;
    assert r[..|whitelist|] == launches;
    assert r[|whitelist| + |between| + 1..] == restarts;
    r
  }

  /**
   Put after effects that issue no `EE::exec` (a prefix, and the steps between
   snapshot and regeneration), the pattern runs `up -d global-<service>`
   exactly for the whitelisted services whose `ps -q` output was non-empty.
   */
  lemma RestartsExactlyRunning(prefix: seq<Effect>, whitelist: seq<string>, ps: string -> string,
                               between: seq<Effect>, composeCmd: string, service: string)
    requires forall e :: e in prefix ==> !e.Exec?
    requires forall e :: e in between ==> !e.Exec?
    ensures (Exec(RestartCommand(composeCmd, service)) in prefix + SnapshotRegenerateRestart(whitelist, ps, between, composeCmd))
              <==> service in whitelist && !Php.Empty(ps(PsCommand(service)))
  {
    var snap := TakeSnapshot(whitelist, ps);
    var rs := RestartEffects(snap, composeCmd);
    var body := SnapshotLaunches(whitelist) + between + [GenerateCompose];
    assert SnapshotRegenerateRestart(whitelist, ps, between, composeCmd) == body + rs;
    assert prefix + (body + rs) == (prefix + body) + rs;
    assert forall e :: e in prefix + body ==> !e.Exec?;
    RestartEffectsExactly(snap, composeCmd, service);
    RestartedIffWasRunning(whitelist, ps, service);
  }

  /** Where each part of the pattern sits once it follows a prefix. */
  lemma LayoutAfter(prefix: seq<Effect>, whitelist: seq<string>, ps: string -> string,
                    between: seq<Effect>, composeCmd: string)
    ensures var r := prefix + SnapshotRegenerateRestart(whitelist, ps, between, composeCmd);
            var k := |prefix|;
            var g := k + |whitelist| + |between|;
            && |r| == g + 1 + |ToRestart(TakeSnapshot(whitelist, ps))|
            && r[..k] == prefix
            && r[k..k + |whitelist|] == SnapshotLaunches(whitelist)
            && r[k + |whitelist|..g] == between
            && r[g] == GenerateCompose
            && r[g + 1..] == RestartEffects(TakeSnapshot(whitelist, ps), composeCmd)
  {
    var launches := SnapshotLaunches(whitelist);
    var restarts := RestartEffects(TakeSnapshot(whitelist, ps), composeCmd);
    assert SnapshotRegenerateRestart(whitelist, ps, between, composeCmd) == launches + between + [GenerateCompose] + restarts;
    SlicesOfConcatenation(prefix, launches, between, GenerateCompose, restarts);
  }

  /** The slices of `p + (a + b + [x] + c)` that give back each part. */
  lemma SlicesOfConcatenation<T>(p: seq<T>, a: seq<T>, b: seq<T>, x: T, c: seq<T>)
    ensures var r := p + (a + b + [x] + c);
            var g := |p| + |a| + |b|;
            && |r| == g + 1 + |c|
            && r[..|p|] == p
            && r[|p|..|p| + |a|] == a
            && r[|p| + |a|..g] == b
            && r[g] == x
            && r[g + 1..] == c
  {
    var r := p + (a + b + [x] + c);
    assert r == p + a + b + [x] + c;
  }
}
