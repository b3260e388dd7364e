// The recertification lock file (cmd/slimference/codex_recert.go) under any interleaving
// of its processes' steps.
module RecertLock {
  import opened Strs

  // The file at the lock path: who created it, whether the pid has been written, whether
  // it is older than thirty minutes.
  datatype Lock = Lock(owner: nat, marked: bool, aged: bool)

  // Created and Holding processes hold the lock, before and after writing their pid.
  datatype Phase = Trying | Judging | Removing | Created | Holding | Refused | Gone

  datatype State = State(file: Option<Lock>, procs: seq<Phase>)

  datatype Action = Try(p: nat) | Mark(p: nat) | Judge(p: nat) | Remove(p: nat) | Unlock(p: nat) | Crash(p: nat) | Age

  // atomic: nothing happens between judging a lock stale and removing it.
  // onlyDead: no lock of a live process grows older than thirty minutes.
  datatype Rules = Rules(atomic: bool, onlyDead: bool)

  predicate Holds(phase: Phase) {
    phase.Created? || phase.Holding?
  }

  predicate HolderAt(s: State, p: nat) {
    p < |s.procs| && Holds(s.procs[p])
  }

  // A process is dead once it has crashed or is done; none is beyond the list.
  predicate Dead(s: State, p: nat) {
    p >= |s.procs| || s.procs[p].Gone?
  }

  // The test of an existing file by process p.
  predicate Stale(s: State, p: nat) {
    && s.file.Some?
    && (s.file.value.aged || (s.file.value.marked && s.file.value.owner != p && Dead(s, s.file.value.owner)))
  }

  function At(s: State, p: nat, phase: Phase): State
    requires p < |s.procs|
  {
    s.(procs := s.procs[p := phase])
  }

  // An action that its process cannot take changes nothing.
  function Step(rules: Rules, s: State, a: Action): State {
    match a
    case Try(p) =>
      if p >= |s.procs| || !s.procs[p].Trying? then s
      else if s.file.Some? then At(s, p, Judging)
      else At(s.(file := Some(Lock(p, false, false))), p, Created)
    case Mark(p) =>
      if p >= |s.procs| || !s.procs[p].Created? then s
      else
        // The pid goes to the file that was created, wherever the path leads now.
        var file := if s.file.Some? && s.file.value.owner == p then Some(s.file.value.(marked := true)) else s.file;
        At(s.(file := file), p, Holding)
    case Judge(p) =>
      if p >= |s.procs| || !s.procs[p].Judging? then s
      else if !Stale(s, p) then At(s, p, Refused)
      else if rules.atomic then At(s.(file := None), p, Trying)
      else At(s, p, Removing)
    case Remove(p) =>
      if p >= |s.procs| || !s.procs[p].Removing? then s else At(s.(file := None), p, Trying)
    case Unlock(p) =>
      if p >= |s.procs| || !s.procs[p].Holding? then s else At(s.(file := None), p, Gone)
    case Crash(p) =>
      if p >= |s.procs| then s else At(s, p, Gone)
    case Age =>
      if s.file.None? || (rules.onlyDead && HolderAt(s, s.file.value.owner)) then s
      else s.(file := Some(s.file.value.(aged := true)))
  }

  // What each action needs of its process.
  predicate CanAct(s: State, a: Action) {
    match a
    case Try(p) => p < |s.procs| && s.procs[p].Trying?
    case Mark(p) => p < |s.procs| && s.procs[p].Created?
    case Judge(p) => p < |s.procs| && s.procs[p].Judging?
    case Remove(p) => p < |s.procs| && s.procs[p].Removing?
    case Unlock(p) => p < |s.procs| && s.procs[p].Holding?
    case Crash(p) => p < |s.procs|
    case Age => s.file.Some?
  }

  // Otherwise nothing changes; and a process that marks its lock leaves another's alone.
  lemma IdleSteps(rules: Rules, s: State, a: Action)
    ensures !CanAct(s, a) ==> Step(rules, s, a) == s
    ensures a.Mark? && s.file.Some? && s.file.value.owner != a.p ==> Step(rules, s, a).file == s.file
  {
  }

  // What an action that its process can take does to the file and to the process.
  lemma LockSteps(rules: Rules, s: State, p: nat)
    ensures CanAct(s, Try(p)) && s.file.None? ==>
      var t := Step(rules, s, Try(p)); t.file == Some(Lock(p, false, false)) && t.procs == s.procs[p := Created]
    ensures CanAct(s, Try(p)) && s.file.Some? ==> Step(rules, s, Try(p)) == s.(procs := s.procs[p := Judging])
    ensures CanAct(s, Mark(p)) && s.file.Some? && s.file.value.owner == p ==>
      var t := Step(rules, s, Mark(p));
      t.file == Some(s.file.value.(marked := true)) && t.procs == s.procs[p := Holding]
    ensures CanAct(s, Unlock(p)) ==> Step(rules, s, Unlock(p)) == State(None, s.procs[p := Gone])
    ensures CanAct(s, Crash(p)) ==> Step(rules, s, Crash(p)) == s.(procs := s.procs[p := Gone])
    ensures CanAct(s, Remove(p)) ==> Step(rules, s, Remove(p)) == State(None, s.procs[p := Trying])
  {
  }

  // A process refuses exactly if the file is gone, or is neither old nor marked by another
  // process that is dead.
  lemma JudgedIff(rules: Rules, s: State, p: nat)
    requires CanAct(s, Judge(p))
    ensures var t := Step(rules, s, Judge(p));
      var young := s.file.None? || !s.file.value.aged;
      var others := s.file.None? || !s.file.value.marked || s.file.value.owner == p
        || (s.file.value.owner < |s.procs| && s.procs[s.file.value.owner] != Gone);
      && (young && others ==> t == s.(procs := s.procs[p := Refused]))
      && (!(young && others) && rules.atomic ==> t == State(None, s.procs[p := Trying]))
      && (!(young && others) && !rules.atomic ==> t == s.(procs := s.procs[p := Removing]))
  {
  }

  // A lock grows old without its holder noticing, unless the rules forbid it.
  lemma AgeSteps(rules: Rules, s: State)
    requires s.file.Some?
    ensures var owner := s.file.value.owner;
      var held := owner < |s.procs| && s.procs[owner] in {Created, Holding};
      && (rules.onlyDead && held ==> Step(rules, s, Age) == s)
      && (!(rules.onlyDead && held) ==> Step(rules, s, Age) == s.(file := Some(s.file.value.(aged := true))))
  {
  }

  function Start(n: nat): State {
    State(None, seq(n, _ => Trying))
  }

  function Run(rules: Rules, n: nat, actions: seq<Action>): State {
    if actions == [] then Start(n)
    else Step(rules, Run(rules, n, actions[..|actions| - 1]), actions[|actions| - 1])
  }

  ghost predicate Exclusive(s: State) {
    forall p, q :: HolderAt(s, p) && HolderAt(s, q) ==> p == q
  }

  // ---- the two rules give mutual exclusion ----

  // Every live holder's file is the one at the path, and no process is about to remove it.
  ghost predicate Guarded(s: State) {
    && (forall p :: HolderAt(s, p) ==> s.file.Some? && s.file.value.owner == p && !s.file.value.aged)
    && (forall p :: 0 <= p < |s.procs| ==> !s.procs[p].Removing?)
  }

  lemma StepGuarded(rules: Rules, s: State, a: Action)
    requires rules == Rules(true, true) && Guarded(s)
    ensures Guarded(Step(rules, s, a))
  {
    var t := Step(rules, s, a);
    forall q: nat | HolderAt(t, q) ensures t.file.Some? && t.file.value.owner == q && !t.file.value.aged {
      if !a.Age? {
        assert HolderAt(s, a.p) == (a.p < |s.procs| && Holds(s.procs[a.p]));
      }
      assert HolderAt(s, q) == Holds(s.procs[q]);
    }
  }

  lemma {:induction false} RunGuarded(rules: Rules, n: nat, actions: seq<Action>)
    requires rules == Rules(true, true)
    ensures Guarded(Run(rules, n, actions))
  {
    hide Step, Guarded;
    if actions == [] {
      assert Guarded(Start(n)) by { StartGuarded(n); }
    } else {
      RunGuarded(rules, n, actions[..|actions| - 1]);
      StepGuarded(rules, Run(rules, n, actions[..|actions| - 1]), actions[|actions| - 1]);
    }
  }

  lemma StartGuarded(n: nat)
    ensures Guarded(Start(n))
  {
  }

  // ---- without either rule it fails ----

  lemma RunMore(rules: Rules, n: nat, actions: seq<Action>, a: Action)
    ensures Run(rules, n, actions + [a]) == Step(rules, Run(rules, n, actions), a)
  {
    assert (actions + [a])[..|actions|] == actions;
  }

  // A live owner's lock grows old, and a second process takes it over.
  lemma AgedTakeOver(rules: Rules, n: nat) returns (t: seq<Action>)
    requires !rules.onlyDead && n >= 2
    ensures HolderAt(Run(rules, n, t), 0) && HolderAt(Run(rules, n, t), 1)
  {
    hide Run;
    assert Run(rules, n, []) == Start(n) by { RunNone(rules, n); }
    var t0: seq<Action> := [];
    var t1 := t0 + [Try(0)];
    RunMore(rules, n, t0, Try(0));
    assert Run(rules, n, t1) == At(Start(n).(file := Some(Lock(0, false, false))), 0, Created);
    var t2 := t1 + [Mark(0)];
    RunMore(rules, n, t1, Mark(0));
    assert Run(rules, n, t2) == At(Start(n).(file := Some(Lock(0, true, false))), 0, Holding);
    var t3 := t2 + [Age];
    RunMore(rules, n, t2, Age);
    assert Run(rules, n, t3) == At(Start(n).(file := Some(Lock(0, true, true))), 0, Holding);
    var t4 := t3 + [Try(1)];
    RunMore(rules, n, t3, Try(1));
    assert Run(rules, n, t4) == At(At(Start(n).(file := Some(Lock(0, true, true))), 0, Holding), 1, Judging);
    var t5 := t4 + [Judge(1)];
    RunMore(rules, n, t4, Judge(1));
    assert Run(rules, n, t5) ==
      if rules.atomic then At(Start(n), 0, Holding)
      else At(At(Start(n).(file := Some(Lock(0, true, true))), 0, Holding), 1, Removing);
    var t6 := t5 + [Remove(1)];
    RunMore(rules, n, t5, Remove(1));
    assert Run(rules, n, t6) == At(Start(n), 0, Holding);
    var t7 := t6 + [Try(1)];
    RunMore(rules, n, t6, Try(1));
    assert Run(rules, n, t7) == At(At(Start(n).(file := Some(Lock(1, false, false))), 0, Holding), 1, Created);
    t := t7;
  }

  lemma RunNone(rules: Rules, n: nat)
    ensures Run(rules, n, []) == Start(n)
  {
  }

  // Process 0 is gone, the next two are as given.
  function Racing(n: nat, file: Option<Lock>, one: Phase, two: Phase): State
    requires n >= 3
  {
    At(At(At(Start(n).(file := file), 0, Gone), 1, one), 2, two)
  }

  // Two processes judge a dead owner's lock; the slower one removes the lock that the
  // faster one has created meanwhile.
  lemma SlowRemoval(rules: Rules, n: nat) returns (t: seq<Action>)
    requires !rules.atomic && n >= 3
    ensures HolderAt(Run(rules, n, t), 1) && HolderAt(Run(rules, n, t), 2)
  {
    hide Run;
    assert Run(rules, n, []) == Start(n) by { RunNone(rules, n); }
    var t0: seq<Action> := [];
    var t1 := t0 + [Try(0)];
    RunMore(rules, n, t0, Try(0));
    assert Run(rules, n, t1) == At(Start(n).(file := Some(Lock(0, false, false))), 0, Created);
    var t2 := t1 + [Mark(0)];
    RunMore(rules, n, t1, Mark(0));
    assert Run(rules, n, t2) == At(Start(n).(file := Some(Lock(0, true, false))), 0, Holding);
    var t3 := t2 + [Crash(0)];
    RunMore(rules, n, t2, Crash(0));
    assert Run(rules, n, t3) == At(Start(n).(file := Some(Lock(0, true, false))), 0, Gone);
    var t4 := t3 + [Try(1)];
    RunMore(rules, n, t3, Try(1));
    assert Run(rules, n, t4) == Racing(n, Some(Lock(0, true, false)), Judging, Trying);
    var t5 := t4 + [Try(2)];
    RunMore(rules, n, t4, Try(2));
    assert Run(rules, n, t5) == Racing(n, Some(Lock(0, true, false)), Judging, Judging);
    var t6 := t5 + [Judge(1)];
    RunMore(rules, n, t5, Judge(1));
    assert Run(rules, n, t6) == Racing(n, Some(Lock(0, true, false)), Removing, Judging);
    var t7 := t6 + [Judge(2)];
    RunMore(rules, n, t6, Judge(2));
    assert Run(rules, n, t7) == Racing(n, Some(Lock(0, true, false)), Removing, Removing);
    var t8 := t7 + [Remove(1)];
    RunMore(rules, n, t7, Remove(1));
    assert Run(rules, n, t8) == Racing(n, None, Trying, Removing);
    var t9 := t8 + [Try(1)];
    RunMore(rules, n, t8, Try(1));
    assert Run(rules, n, t9) == Racing(n, Some(Lock(1, false, false)), Created, Removing);
    var t10 := t9 + [Remove(2)];
    RunMore(rules, n, t9, Remove(2));
    assert Run(rules, n, t10) == Racing(n, None, Created, Trying);
    var t11 := t10 + [Try(2)];
    RunMore(rules, n, t10, Try(2));
    assert Run(rules, n, t11) == Racing(n, Some(Lock(2, false, false)), Created, Created);
    t := t11;
  }

  // With three processes or more, no run has two holders exactly when both rules hold.
  lemma ExclusiveIff(rules: Rules, n: nat)
    requires n >= 3
    ensures (forall actions :: Exclusive(Run(rules, n, actions))) <==> rules.atomic && rules.onlyDead
  {
    hide Run;
    if rules.atomic && rules.onlyDead {
      forall actions ensures Exclusive(Run(rules, n, actions)) {
        RunGuarded(rules, n, actions);
      }
    } else if !rules.onlyDead {
      var t := AgedTakeOver(rules, n);
      assert !Exclusive(Run(rules, n, t));
    } else {
      var t := SlowRemoval(rules, n);
      assert !Exclusive(Run(rules, n, t));
    }
  }

  // ---- a lock left behind ----

  function Continue(rules: Rules, s: State, actions: seq<Action>): State {
    if actions == [] then s
    else Step(rules, Continue(rules, s, actions[..|actions| - 1]), actions[|actions| - 1])
  }

  // The process acts alone, without crashing.
  predicate OnlyBy(actions: seq<Action>, p: nat) {
    forall i :: 0 <= i < |actions| ==> !actions[i].Age? && !actions[i].Crash? && actions[i].p == p
  }

  ghost predicate CanTake(rules: Rules, s: State, p: nat) {
    exists actions :: OnlyBy(actions, p) && HolderAt(Continue(rules, s, actions), p)
  }

  // A lock that was never marked and is not old keeps a process from ever holding it.
  ghost predicate Barred(s: State, p: nat, lock: Lock) {
    s.file == Some(lock) && p < |s.procs| && (s.procs[p].Trying? || s.procs[p].Judging? || s.procs[p].Refused?)
  }

  lemma {:induction false} StaysBarred(rules: Rules, s: State, p: nat, lock: Lock, actions: seq<Action>)
    requires Barred(s, p, lock) && !lock.marked && !lock.aged && OnlyBy(actions, p)
    ensures Barred(Continue(rules, s, actions), p, lock)
  {
    if actions != [] {
      StaysBarred(rules, s, p, lock, actions[..|actions| - 1]);
    }
  }

  lemma Taken(rules: Rules, s: State, p: nat)
    requires p < |s.procs| && s.procs[p].Trying? && s.file.Some? && Stale(s, p)
    ensures CanTake(rules, s, p)
  {
    var judged := Step(rules, Step(rules, s, Try(p)), Judge(p));
    assert Step(rules, Step(rules, judged, Remove(p)), Try(p)).procs[p].Created?;
    var actions := [Try(p), Judge(p), Remove(p), Try(p)];
    assert actions[..3][..2] == actions[..2] && actions[..2][..1] == actions[..1] && actions[..1][..0] == [];
    assert Continue(rules, s, []) == s;
    assert Continue(rules, s, actions[..1]) == Step(rules, s, Try(p));
    assert Continue(rules, s, actions[..2]) == judged;
    assert Continue(rules, s, actions[..3]) == Step(rules, judged, Remove(p));
    assert OnlyBy(actions, p) && HolderAt(Continue(rules, s, actions), p);
  }

  // A process that finds a dead owner's lock can take it by itself, by any steps of its
  // own, exactly if the owner had written its pid or the lock has grown old.
  lemma DeadLockTakenIff(rules: Rules, s: State, p: nat)
    requires p < |s.procs| && s.procs[p].Trying?
    requires s.file.Some? && s.file.value.owner != p && Dead(s, s.file.value.owner)
    ensures CanTake(rules, s, p) <==> s.file.value.marked || s.file.value.aged
  {
    var lock := s.file.value;
    if lock.marked || lock.aged {
      Taken(rules, s, p);
    } else if CanTake(rules, s, p) {
      var actions :| OnlyBy(actions, p) && HolderAt(Continue(rules, s, actions), p);
      StaysBarred(rules, s, p, lock, actions);
    }
  }
}
