// The transparent-mode switch of the daemon: hosts patch, armed flag, stored cleanup and
// SNI engine over startup, SIGHUP and shutdown
// (cmd/slimference/hosts_lifecycle.go, main.go and headless.go).
module HostsReload {
  import opened Basics
  import opened Strs

  // A cleanup does nothing, or is the closure of one applied patch.
  datatype Cleanup = NoOp | Reverse(patch: nat)

  // cfg is None for a nil configuration, else the mode; hosts is the patch in force;
  // applied numbers the patches; reversed lists the closures' reversals in order.
  datatype State = State(
    cfg: Option<bool>,
    armed: bool,
    cleanup: Option<Cleanup>,
    engine: bool,
    hosts: Option<nat>,
    applied: nat,
    reversed: seq<nat>,
    stopped: bool)

  // The outcomes come from outside. want is what the configuration file says, if it can
  // be read and says it.
  datatype Event =
    | Sighup(want: Option<bool>, applyOk: bool, reverseOk: bool, engineOk: bool)
    | Shutdown(reverseOk: bool)

  // ---- the pieces ----

  function Apply(s: State, applyOk: bool): State {
    if s.cfg != Some(true) || !applyOk then s.(armed := false, cleanup := Some(NoOp))
    else s.(armed := true, cleanup := Some(Reverse(s.applied)), hosts := Some(s.applied), applied := s.applied + 1)
  }

  function Clean(s: State, reverseOk: bool): State {
    match s.cleanup
    case Some(Reverse(patch)) =>
      if patch in s.reversed then s
      else if reverseOk then s.(reversed := s.reversed + [patch], hosts := None, armed := false)
      else s.(reversed := s.reversed + [patch])
    case _ => s
  }

  function Reloaded(s: State, want: bool, applyOk: bool, reverseOk: bool, engineOk: bool): State {
    if want && !s.armed then
      var t := Apply(s.(cfg := Some(true)), applyOk);
      t.(engine := t.engine || engineOk)
    else if !want && s.armed then
      var t := Clean(s.(cfg := Some(false)), reverseOk);
      t.(cleanup := None, armed := false, engine := false)
    else s.(cfg := Some(want), engine := s.engine && want)
  }

  function Start(cfg: Option<bool>, applyOk: bool, engineOk: bool): State {
    var s := Apply(State(cfg, false, None, false, None, 0, [], false), applyOk);
    s.(engine := cfg == Some(true) && engineOk)
  }

  function Step(s: State, e: Event): State {
    if s.stopped then s
    else match e
      case Sighup(want, applyOk, reverseOk, engineOk) =>
        if s.cfg.None? || want.None? then s else Reloaded(s, want.value, applyOk, reverseOk, engineOk)
      case Shutdown(reverseOk) => Clean(s, reverseOk).(engine := false, stopped := true)
  }

  function Run(start: State, events: seq<Event>): State {
    if events == [] then start else Step(Run(start, events[..|events| - 1]), events[|events| - 1])
  }

  // ---- the daemon ----

  class Daemon {
    var cfg: Option<bool>
    var armed: bool
    var cleanup: Option<Cleanup>
    var engine: bool
    var hosts: Option<nat>
    var applied: nat
    var reversed: seq<nat>
    var stopped: bool

    ghost function Contents(): State reads this {
      State(cfg, armed, cleanup, engine, hosts, applied, reversed, stopped)
    }

    constructor (cfg: Option<bool>, applyOk: bool, engineOk: bool)
      ensures Contents() == Start(cfg, applyOk, engineOk)
    {
      this.cfg, armed, cleanup, engine := cfg, false, None, false;
      hosts, applied, reversed, stopped := None, 0, [], false;
      new;
      cleanup := ApplyHostsPatch(applyOk);
      engine := cfg == Some(true) && engineOk;
    }

    // Returns the cleanup; the caller stores it.
    method ApplyHostsPatch(applyOk: bool) returns (c: Option<Cleanup>)
      modifies this
      ensures Contents().(cleanup := c) == Apply(old(Contents()), applyOk)
      ensures cleanup == old(cleanup)
    {
      armed := false;
      if cfg.None? || !cfg.value { return Some(NoOp); }
      if !applyOk { return Some(NoOp); }
      hosts, c, applied := Some(applied), Some(Reverse(applied)), applied + 1;
      armed := true;
    }

    method RunCleanup(reverseOk: bool)
      modifies this
      ensures Contents() == Clean(old(Contents()), reverseOk)
    {
      if cleanup.None? || cleanup.value.NoOp? { return; }
      var patch := cleanup.value.patch;
      if patch in reversed { return; }
      reversed := reversed + [patch];
      if !reverseOk { return; }
      hosts := None;
      armed := false;
    }

    method ReloadSNIPeekMode(want: Option<bool>, applyOk: bool, reverseOk: bool, engineOk: bool)
      modifies this
      ensures Contents() == Step(old(Contents()), Sighup(want, applyOk, reverseOk, engineOk))
    {
      if stopped || cfg.None? || want.None? { return; }
      var wantOn, currentlyArmed := want.value, armed;
      if wantOn && !currentlyArmed {
        cfg := Some(true);
        cleanup := ApplyHostsPatch(applyOk);
        if !engine {
          engine := engineOk;
        }
      } else if !wantOn && currentlyArmed {
        cfg := Some(false);
        if cleanup.Some? {
          RunCleanup(reverseOk);
          cleanup := None;
        }
        armed := false;
        engine := false;
      } else {
        cfg := Some(wantOn);
        if !wantOn {
          engine := false;
        }
      }
    }

    method Stop(reverseOk: bool)
      modifies this
      ensures Contents() == Step(old(Contents()), Shutdown(reverseOk))
    {
      if stopped { return; }
      RunCleanup(reverseOk);
      engine := false;
      stopped := true;
    }
  }

  // ---- every run ----

  // Armed means that a patch is in force and, until shutdown, that the stored cleanup is
  // its closure, which has not run; no patch is reversed twice.
  ghost predicate Inv(s: State) {
    && NoRepeats(s.reversed)
    && (forall p :: p in s.reversed ==> p < s.applied)
    && (s.armed ==> s.hosts.Some?)
    && (!s.stopped && s.armed ==>
          s.hosts.value < s.applied && s.cleanup == Some(Reverse(s.hosts.value)) && s.hosts.value !in s.reversed)
    && (!s.stopped && !s.armed ==> s.cleanup in {None, Some(NoOp)})
    && (s.engine ==> s.cfg == Some(true))
  }

  lemma StepInv(s: State, e: Event)
    requires Inv(s)
    ensures Inv(Step(s, e))
  {
  }

  lemma StartInv(cfg: Option<bool>, applyOk: bool, engineOk: bool)
    ensures Inv(Start(cfg, applyOk, engineOk))
  {
  }

  lemma {:induction false} RunInv(cfg: Option<bool>, applyOk: bool, engineOk: bool, events: seq<Event>)
    ensures Inv(Run(Start(cfg, applyOk, engineOk), events))
  {
    hide Step, Inv, Start;
    if events == [] {
      StartInv(cfg, applyOk, engineOk);
    } else {
      RunInv(cfg, applyOk, engineOk, events[..|events| - 1]);
      StepInv(Run(Start(cfg, applyOk, engineOk), events[..|events| - 1]), events[|events| - 1]);
    }
  }

  // ---- the armed flag, told from the events ----

  predicate HasStopped(events: seq<Event>) {
    exists i :: 0 <= i < |events| && events[i].Shutdown?
  }

  // Whether the last effective event switched the mode on: an apply that worked, with no
  // "off" and no successful shutdown since.
  predicate SwitchedOn(cfg: Option<bool>, applyOk: bool, events: seq<Event>) {
    if cfg.None? then false
    else if events == [] then cfg.value && applyOk
    else
      var n := |events| - 1;
      var on := SwitchedOn(cfg, applyOk, events[..n]);
      if HasStopped(events[..n]) then on
      else match events[n]
        case Sighup(Some(true), ok, _, _) => on || ok
        case Sighup(Some(false), _, _, _) => false
        case Sighup(None, _, _, _) => on
        case Shutdown(reverseOk) => on && !reverseOk
  }

  // Event k is a SIGHUP that switches a running, switched-on daemon off and fails to
  // reverse its patch.
  predicate FailsToReverse(cfg: Option<bool>, applyOk: bool, events: seq<Event>, k: nat)
    requires k < |events|
  {
    && events[k].Sighup? && events[k].want == Some(false) && !events[k].reverseOk
    && SwitchedOn(cfg, applyOk, events[..k]) && !HasStopped(events[..k])
  }

  lemma {:induction false} ArmedIsSwitchedOn(cfg: Option<bool>, applyOk: bool, engineOk: bool, events: seq<Event>)
    ensures var s := Run(Start(cfg, applyOk, engineOk), events);
      s.armed == SwitchedOn(cfg, applyOk, events) && s.stopped == HasStopped(events) && s.cfg.Some? == cfg.Some?
  {
    hide HasStopped;
    if events == [] {
      assert !HasStopped([]) by { NothingStopped(); }
    } else {
      var n := |events| - 1;
      ArmedIsSwitchedOn(cfg, applyOk, engineOk, events[..n]);
      RunInv(cfg, applyOk, engineOk, events[..n]);
      StoppedLast(events, n);
    }
  }

  lemma NothingStopped()
    ensures !HasStopped([])
  {
  }

  lemma StoppedLast(events: seq<Event>, n: nat)
    requires |events| == n + 1
    ensures HasStopped(events) == (HasStopped(events[..n]) || events[n].Shutdown?)
  {
    if i :| 0 <= i < |events| && events[i].Shutdown? && i < n {
      assert events[..n][i].Shutdown?;
    }
  }

  ghost predicate Consistent(s: State) {
    s.armed == s.hosts.Some?
  }

  lemma StepConsistent(s: State, e: Event)
    requires Inv(s) && Consistent(s)
    ensures Consistent(Step(s, e)) <==>
      !(!s.stopped && s.armed && e.Sighup? && e.want == Some(false) && s.cfg.Some? && !e.reverseOk)
  {
  }

  lemma FailureAt(cfg: Option<bool>, applyOk: bool, engineOk: bool, events: seq<Event>, k: nat)
    requires k < |events| && Consistent(Run(Start(cfg, applyOk, engineOk), events[..k]))
    ensures Consistent(Run(Start(cfg, applyOk, engineOk), events[..k + 1]))
       <==> !FailsToReverse(cfg, applyOk, events, k)
  {
    hide Step, Start, SwitchedOn, HasStopped, Inv, Consistent;
    var s := Run(Start(cfg, applyOk, engineOk), events[..k]);
    RunInv(cfg, applyOk, engineOk, events[..k]);
    ArmedIsSwitchedOn(cfg, applyOk, engineOk, events[..k]);
    StepConsistent(s, events[k]);
    assert events[..k + 1][..k] == events[..k];
    if cfg.None? {
      NeverOn(cfg, applyOk, events[..k]);
    }
  }

  lemma NeverOn(cfg: Option<bool>, applyOk: bool, events: seq<Event>)
    requires cfg.None?
    ensures !SwitchedOn(cfg, applyOk, events)
  {
  }

  lemma {:induction false} ConsistentUpTo(cfg: Option<bool>, applyOk: bool, engineOk: bool, events: seq<Event>, n: nat)
    requires n <= |events| && forall k :: 0 <= k < n ==> !FailsToReverse(cfg, applyOk, events, k)
    ensures Consistent(Run(Start(cfg, applyOk, engineOk), events[..n]))
  {
    hide FailsToReverse, Step;
    if n > 0 {
      ConsistentUpTo(cfg, applyOk, engineOk, events, n - 1);
      FailureAt(cfg, applyOk, engineOk, events, n - 1);
    }
  }

  // Over startup, SIGHUPs and shutdown, the armed flag tells whether the hosts file is
  // patched, after every event, exactly when no SIGHUP has failed to reverse the patch of a
  // daemon it switches off.
  lemma ArmedIffPatched(cfg: Option<bool>, applyOk: bool, engineOk: bool, events: seq<Event>)
    ensures (forall k :: 0 <= k <= |events| ==> Consistent(Run(Start(cfg, applyOk, engineOk), events[..k])))
       <==> (forall k :: 0 <= k < |events| ==> !FailsToReverse(cfg, applyOk, events, k))
  {
    hide Run, Start, Step, FailsToReverse, Consistent;
    if forall k :: 0 <= k < |events| ==> !FailsToReverse(cfg, applyOk, events, k) {
      forall k | 0 <= k <= |events| ensures Consistent(Run(Start(cfg, applyOk, engineOk), events[..k])) {
        ConsistentUpTo(cfg, applyOk, engineOk, events, k);
      }
    } else {
      var k :| 0 <= k < |events| && FailsToReverse(cfg, applyOk, events, k);
      if Consistent(Run(Start(cfg, applyOk, engineOk), events[..k])) {
        FailureAt(cfg, applyOk, engineOk, events, k);
      }
    }
  }

  predicate ReversalsWork(events: seq<Event>) {
    forall i :: 0 <= i < |events| && events[i].Sighup? ==> events[i].reverseOk
  }

  // With successful reversals: armed if and only if patched, shutdown included.
  lemma ArmedIffPatchedWhenReversalsWork(cfg: Option<bool>, applyOk: bool, engineOk: bool, events: seq<Event>)
    requires ReversalsWork(events)
    ensures Consistent(Run(Start(cfg, applyOk, engineOk), events))
  {
    hide Run, Start, SwitchedOn;
    ConsistentUpTo(cfg, applyOk, engineOk, events, |events|);
    assert events[..|events|] == events;
  }

  // ---- the hosts file, told from the events ----

  // Whether the last effective event left a patch: an apply that worked does, and only a
  // reversal that works, of a patch whose closure is still held, takes it away.
  predicate LeftPatched(cfg: Option<bool>, applyOk: bool, events: seq<Event>) {
    if cfg.None? then false
    else if events == [] then cfg.value && applyOk
    else
      var n := |events| - 1;
      var patched := LeftPatched(cfg, applyOk, events[..n]);
      var on := SwitchedOn(cfg, applyOk, events[..n]);
      if HasStopped(events[..n]) then patched
      else match events[n]
        case Sighup(Some(true), ok, _, _) => patched || ok
        case Sighup(Some(false), _, reverseOk, _) => patched && !(on && reverseOk)
        case Sighup(None, _, _, _) => patched
        case Shutdown(reverseOk) => patched && !(on && reverseOk)
  }

  lemma {:induction false} PatchedIsLeft(cfg: Option<bool>, applyOk: bool, engineOk: bool, events: seq<Event>)
    ensures Run(Start(cfg, applyOk, engineOk), events).hosts.Some? == LeftPatched(cfg, applyOk, events)
  {
    hide HasStopped, SwitchedOn;
    if events != [] {
      var n := |events| - 1;
      PatchedIsLeft(cfg, applyOk, engineOk, events[..n]);
      ArmedIsSwitchedOn(cfg, applyOk, engineOk, events[..n]);
      RunInv(cfg, applyOk, engineOk, events[..n]);
    }
  }

  // Event k is a SIGHUP that finds the daemon running, reads "on", and could apply a patch.
  predicate SwitchesOn(events: seq<Event>, k: nat)
    requires k < |events|
  {
    events[k].Sighup? && events[k].want == Some(true) && events[k].applyOk && !HasStopped(events[..k])
  }

  // At the end of a run the flag tells the truth exactly when every failed reversal has
  // been followed by a SIGHUP that switched the mode on again.
  ghost predicate Mended(cfg: Option<bool>, applyOk: bool, events: seq<Event>) {
    forall k :: 0 <= k < |events| && FailsToReverse(cfg, applyOk, events, k) ==>
      exists j :: k < j < |events| && SwitchesOn(events, j)
  }

  lemma {:induction false} ArmedIffPatchedAtEnd(cfg: Option<bool>, applyOk: bool, engineOk: bool, events: seq<Event>)
    ensures Consistent(Run(Start(cfg, applyOk, engineOk), events)) <==> Mended(cfg, applyOk, events)
  {
    hide Step, Start, SwitchedOn, HasStopped, FailsToReverse, SwitchesOn, Inv;
    if events == [] {
      StartInv(cfg, applyOk, engineOk);
      StartConsistent(cfg, applyOk, engineOk);
    } else {
      var n := |events| - 1;
      ArmedIffPatchedAtEnd(cfg, applyOk, engineOk, events[..n]);
      if cfg.None? {
        NeverOn(cfg, applyOk, events[..n]);
      }
      EndStep(cfg, applyOk, engineOk, events, n);
      MendedStep(cfg, applyOk, events, n);
    }
  }

  lemma StartConsistent(cfg: Option<bool>, applyOk: bool, engineOk: bool)
    ensures Consistent(Start(cfg, applyOk, engineOk))
  {
  }

  lemma EndStep(cfg: Option<bool>, applyOk: bool, engineOk: bool, events: seq<Event>, n: nat)
    requires |events| == n + 1 && (cfg.None? ==> !SwitchedOn(cfg, applyOk, events[..n]))
    ensures Consistent(Run(Start(cfg, applyOk, engineOk), events)) <==>
      !FailsToReverse(cfg, applyOk, events, n)
      && (Consistent(Run(Start(cfg, applyOk, engineOk), events[..n])) || (cfg.Some? && SwitchesOn(events, n)))
  {
    hide Start, SwitchedOn, HasStopped;
    ArmedIsSwitchedOn(cfg, applyOk, engineOk, events[..n]);
    RunInv(cfg, applyOk, engineOk, events[..n]);
  }

  lemma MendedStep(cfg: Option<bool>, applyOk: bool, events: seq<Event>, n: nat)
    requires |events| == n + 1
    ensures Mended(cfg, applyOk, events) <==>
      !FailsToReverse(cfg, applyOk, events, n)
      && (Mended(cfg, applyOk, events[..n]) || (cfg.Some? && SwitchesOn(events, n)))
  {
    hide HasStopped;
    var before := events[..n];
    forall k: nat | k < n
      ensures FailsToReverse(cfg, applyOk, before, k) == FailsToReverse(cfg, applyOk, events, k)
      ensures SwitchesOn(before, k) == SwitchesOn(events, k)
      ensures FailsToReverse(cfg, applyOk, events, k) ==> cfg.Some?
    {
      assert before[..k] == events[..k];
      hide SwitchedOn;
      if cfg.None? {
        NeverOn(cfg, applyOk, events[..k]);
      }
    }
    hide FailsToReverse, SwitchesOn;
    if Mended(cfg, applyOk, events) {
      assert !FailsToReverse(cfg, applyOk, events, n);
      if !(cfg.Some? && SwitchesOn(events, n)) {
        forall k | 0 <= k < n && FailsToReverse(cfg, applyOk, before, k)
          ensures exists j :: k < j < n && SwitchesOn(before, j)
        {
          var j :| k < j < |events| && SwitchesOn(events, j);
          assert j != n;
        }
      }
    } else {
      var k :| 0 <= k < |events| && FailsToReverse(cfg, applyOk, events, k)
        && !exists j :: k < j < |events| && SwitchesOn(events, j);
      if k < n && Mended(cfg, applyOk, before) {
        var j :| k < j < n && SwitchesOn(before, j);
        assert SwitchesOn(events, j);
      }
    }
  }

  // ---- switching off and shutting down ----

  // From any reachable state, a SIGHUP that reads "off" leaves no engine, and leaves the
  // hosts file unpatched exactly when it was or the reversal it makes succeeds.
  lemma OffUnpatchesIff(cfg: Option<bool>, applyOk: bool, engineOk: bool, events: seq<Event>, off: Event)
    requires off.Sighup? && off.want == Some(false) && cfg.Some?
    requires !HasStopped(events)
    ensures var s := Run(Start(cfg, applyOk, engineOk), events);
      var t := Step(s, off);
      && !t.engine && !t.armed && t.cfg == Some(false)
      && (t.hosts.None? <==> s.hosts.None? || (s.armed && off.reverseOk))
  {
    hide Run, Start;
    RunInv(cfg, applyOk, engineOk, events);
    ArmedIsSwitchedOn(cfg, applyOk, engineOk, events);
  }

  // A shutdown that reverses leaves the hosts file as clean, without an engine.
  lemma ShutdownUnpatchesIff(cfg: Option<bool>, applyOk: bool, engineOk: bool, events: seq<Event>, reverseOk: bool)
    requires !HasStopped(events)
    ensures var s := Run(Start(cfg, applyOk, engineOk), events);
      var t := Step(s, Shutdown(reverseOk));
      !t.engine && (t.hosts.None? <==> s.hosts.None? || (s.armed && reverseOk))
  {
    hide Run, Start;
    RunInv(cfg, applyOk, engineOk, events);
    ArmedIsSwitchedOn(cfg, applyOk, engineOk, events);
  }

  // Started armed, and switched off while the reversal fails.
  lemma FailedReversal(engineOk: bool)
    ensures var s := Run(Start(Some(true), true, engineOk), [Sighup(Some(false), true, false, engineOk)]);
      s.hosts.Some? && !s.armed && s.cleanup == None
  {
    var off := Sighup(Some(false), true, false, engineOk);
    assert [off][..0] == [];
    assert Run(Start(Some(true), true, engineOk), []) == Start(Some(true), true, engineOk);
  }
}
