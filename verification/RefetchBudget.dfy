// The re-fetch counters of the command-output-first shim
// (cmd/slimference/command_output_first_adaptive.go) and the decision they feed
// (internal/filter/adaptive_budget.go), with rates as exact fractions.
module RefetchBudget {
  import opened Basics
  import opened Strs

  const SEEN_CAP := 4096
  const MIN_SAMPLES := 5

  datatype Counts = Counts(applied: nat, refetch: nat)

  // What the sidecar file holds.
  datatype Saved = Saved(classes: map<string, Counts>, seen: seq<string>)

  // One invocation: its command class and the hash of what was run where.
  datatype Call = Call(command: string, identity: string)

  const FRESH := Saved(map[], [])

  function CountsOf(classes: map<string, Counts>, command: string): Counts {
    if command in classes then classes[command] else Counts(0, 0)
  }

  // ---- the decision ----

  function Clamp(ratio: real): real {
    if ratio < 0.0 then 0.0 else if ratio > 1.0 then 1.0 else ratio
  }

  predicate ShouldFullPass(c: Counts, ratio: real) {
    c.applied >= MIN_SAMPLES && c.refetch as real / c.applied as real >= 1.0 - Clamp(ratio)
  }

  // ---- one invocation ----

  function Recorded(s: Saved, call: Call): Saved {
    var c := CountsOf(s.classes, call.command);
    if call.identity in s.seen then
      s.(classes := s.classes[call.command := c.(refetch := c.refetch + 1)])
    else
      Saved(s.classes[call.command := c.(applied := c.applied + 1)],
            if |s.seen| >= SEEN_CAP then s.seen else s.seen + [call.identity])
  }

  class RefetchState {
    var classes: map<string, Counts>
    var seen: seq<string>
    var seenSet: set<string>

    predicate Valid() reads this {
      seenSet == set id | id in seen
    }

    function Contents(): Saved reads this {
      Saved(classes, seen)
    }

    constructor Load(file: Option<Saved>)
      ensures Valid()
      ensures Contents() == if file.Some? then file.value else FRESH
    {
      classes, seen := map[], [];
      var ids := {};
      if file.Some? {
        classes, seen := file.value.classes, file.value.seen;
        for i := 0 to |file.value.seen|
          invariant ids == set id | id in file.value.seen[..i]
        {
          ids := ids + {file.value.seen[i]};
        }
        assert file.value.seen[..|file.value.seen|] == file.value.seen;
      }
      seenSet := ids;
    }

    method SeenAdd(identity: string)
      requires Valid()
      modifies this`seen, this`seenSet
      ensures Valid()
      ensures seen == if |old(seen)| >= SEEN_CAP then old(seen) else old(seen) + [identity]
    {
      if |seen| >= SEEN_CAP { return; }
      seen := seen + [identity];
      seenSet := seenSet + {identity};
    }

    // Decides from the counts before this invocation, and records it.
    method Record(call: Call, ratio: real) returns (fullPass: bool)
      requires Valid()
      modifies this
      ensures Valid()
      ensures fullPass == ShouldFullPass(CountsOf(old(classes), call.command), ratio)
      ensures Contents() == Recorded(old(Contents()), call)
    {
      var counts := CountsOf(classes, call.command);
      fullPass := ShouldFullPass(counts, ratio);
      if call.identity in seenSet {
        counts := counts.(refetch := counts.refetch + 1);
      } else {
        counts := counts.(applied := counts.applied + 1);
        SeenAdd(call.identity);
      }
      classes := classes[call.command := counts];
    }
  }

  function Loaded(file: Option<Saved>): Saved {
    if file.Some? then file.value else FRESH
  }

  class Sidecar {
    var file: Option<Saved>

    constructor ()
      ensures file == None
    {
      file := None;
    }

    // Without a session or a home directory nothing is decided or recorded. A file that is
    // missing or cannot be read is None; a failed save leaves the file alone.
    method AdaptiveFullPass(session: string, home: string, call: Call, ratio: real, saveOk: bool)
    returns (fullPass: bool)
      modifies this
      ensures var scoped := TrimSpace(session) != "" && TrimSpace(home) != "";
        && fullPass == (scoped && ShouldFullPass(CountsOf(Loaded(old(file)).classes, call.command), ratio))
        && file == if scoped && saveOk then Some(Recorded(Loaded(old(file)), call)) else old(file)
    {
      if TrimSpace(session) == "" || TrimSpace(home) == "" { return false; }
      var state := new RefetchState.Load(file);
      fullPass := state.Record(call, ratio);
      if saveOk {
        file := Some(state.Contents());
      }
    }

    // Two invocations that overlap: both load the file, and the later save wins.
    method Overlap(a: Call, ratioA: real, b: Call, ratioB: real) returns (passA: bool, passB: bool)
      modifies this
      ensures file == Some(Recorded(Loaded(old(file)), b))
      ensures passA == ShouldFullPass(CountsOf(Loaded(old(file)).classes, a.command), ratioA)
      ensures passB == ShouldFullPass(CountsOf(Loaded(old(file)).classes, b.command), ratioB)
    {
      var first := new RefetchState.Load(file);
      var second := new RefetchState.Load(file);
      passA := first.Record(a, ratioA);
      file := Some(first.Contents());
      passB := second.Record(b, ratioB);
      file := Some(second.Contents());
    }
  }

  // ---- runs ----

  function Run(calls: seq<Call>): Saved {
    if calls == [] then FRESH else Recorded(Run(calls[..|calls| - 1]), calls[|calls| - 1])
  }

  // The identities in the order they first appear.
  function Distinct(calls: seq<Call>): seq<string> {
    if calls == [] then []
    else
      var before, id := Distinct(calls[..|calls| - 1]), calls[|calls| - 1].identity;
      if id in before then before else before + [id]
  }

  function Calls(calls: seq<Call>, command: string): nat {
    if calls == [] then 0
    else Calls(calls[..|calls| - 1], command) + if calls[|calls| - 1].command == command then 1 else 0
  }

  // The counts without a cap: a call is a re-fetch if an earlier one had its identity.
  function Ideal(calls: seq<Call>, command: string): Counts {
    if calls == [] then Counts(0, 0)
    else
      var n := |calls| - 1;
      var c := Ideal(calls[..n], command);
      if calls[n].command != command then c
      else if exists i :: 0 <= i < n && calls[i].identity == calls[n].identity then c.(refetch := c.refetch + 1)
      else c.(applied := c.applied + 1)
  }

  function Capped(calls: seq<Call>, command: string): Counts {
    CountsOf(Run(calls).classes, command)
  }

  lemma {:induction false} DistinctMeans(calls: seq<Call>)
    ensures NoRepeats(Distinct(calls))
    ensures forall id :: id in Distinct(calls) <==> exists i :: 0 <= i < |calls| && calls[i].identity == id
  {
    if calls != [] {
      var n := |calls| - 1;
      var before := Distinct(calls[..n]);
      DistinctMeans(calls[..n]);
      forall id ensures id in Distinct(calls) <==> exists i :: 0 <= i < |calls| && calls[i].identity == id {
        if i :| 0 <= i < |calls| && calls[i].identity == id {
          if i < n {
            assert calls[..n][i].identity == id;
          }
        }
        if id in before {
          var i :| 0 <= i < n && calls[..n][i].identity == id;
          assert calls[i].identity == id;
        }
      }
    }
  }

  // The saved identities are the first distinct ones, up to the cap.
  lemma {:induction false} SeenIsFirstDistinct(calls: seq<Call>)
    ensures var d := Distinct(calls); Run(calls).seen == d[..Min(|d|, 4096)]
    ensures NoRepeats(Run(calls).seen) && |Run(calls).seen| <= 4096
  {
    DistinctMeans(calls);
    if calls != [] {
      var n := |calls| - 1;
      SeenIsFirstDistinct(calls[..n]);
      var d, id := Distinct(calls[..n]), calls[n].identity;
      if |d| <= SEEN_CAP {
        assert d[..Min(|d|, SEEN_CAP)] == d;
      } else if id !in d {
        assert (d + [id])[..SEEN_CAP] == d[..SEEN_CAP];
      }
    }
  }

  predicate Repeats(calls: seq<Call>, n: nat)
    requires n < |calls|
  {
    exists i :: 0 <= i < n && calls[i].identity == calls[n].identity
  }

  // Up to the cap, a saved identity is just an earlier one; past it, a saved one still is.
  lemma SeenRepeats(calls: seq<Call>, n: nat)
    requires n < |calls|
    ensures var seen := Run(calls[..n]).seen;
      && (calls[n].identity in seen ==> Repeats(calls, n))
      && (|Distinct(calls[..n])| <= SEEN_CAP ==> (calls[n].identity in seen <==> Repeats(calls, n)))
  {
    hide Run;
    var rest := calls[..n];
    var d, id := Distinct(rest), calls[n].identity;
    SeenIsFirstDistinct(rest);
    DistinctMeans(rest);
    if id in d {
      var i :| 0 <= i < |rest| && rest[i].identity == id;
      assert calls[i].identity == id;
    }
    if i :| 0 <= i < n && calls[i].identity == id {
      assert rest[i].identity == id;
    }
    if |d| <= SEEN_CAP {
      assert d[..Min(|d|, SEEN_CAP)] == d;
    }
  }

  lemma CappedStep(calls: seq<Call>, n: nat, command: string)
    requires |calls| == n + 1
    ensures var c := Capped(calls[..n], command);
      Capped(calls, command) ==
        if calls[n].command != command then c
        else if calls[n].identity in Run(calls[..n]).seen then c.(refetch := c.refetch + 1)
        else c.(applied := c.applied + 1)
  {
  }

  lemma IdealStep(calls: seq<Call>, n: nat, command: string)
    requires |calls| == n + 1
    ensures var c := Ideal(calls[..n], command);
      Ideal(calls, command) ==
        if calls[n].command != command then c
        else if Repeats(calls, n) then c.(refetch := c.refetch + 1)
        else c.(applied := c.applied + 1)
  {
  }

  // Per class the two counts add up to its calls, and the capped counters err on one
  // side; up to the cap they are exact.
  lemma {:induction false} CappedRefinesIdeal(calls: seq<Call>, command: string)
    ensures var c, i := Capped(calls, command), Ideal(calls, command);
      && c.applied + c.refetch == Calls(calls, command) == i.applied + i.refetch
      && c.refetch <= i.refetch && c.applied >= i.applied
      && (|Distinct(calls)| <= SEEN_CAP ==> c == i)
  {
    hide Capped, Ideal, Run, Repeats;
    if calls == [] {
      NoCalls(command);
    } else {
      var n := |calls| - 1;
      CappedRefinesIdeal(calls[..n], command);
      SeenRepeats(calls, n);
      CappedStep(calls, n, command);
      IdealStep(calls, n, command);
    }
  }

  lemma NoCalls(command: string)
    ensures Capped([], command) == Ideal([], command) == Counts(0, 0)
  {
  }

  // A session of calls, each loading and saving the file.
  method RunSession(session: string, home: string, calls: seq<Call>, ratios: seq<real>)
    returns (file: Option<Saved>, passed: seq<bool>)
    requires TrimSpace(session) != "" && TrimSpace(home) != ""
    requires |ratios| == |calls| > 0
    ensures file == Some(Run(calls))
    ensures |passed| == |calls|
    ensures forall i :: 0 <= i < |calls| ==>
      passed[i] == ShouldFullPass(Capped(calls[..i], calls[i].command), ratios[i])
  {
    hide Recorded, ShouldFullPass;
    var sidecar := new Sidecar();
    passed := [];
    for n := 0 to |calls|
      invariant sidecar.file == if n == 0 then None else Some(Run(calls[..n]))
      invariant |passed| == n
      invariant forall i :: 0 <= i < n ==>
        passed[i] == ShouldFullPass(Capped(calls[..i], calls[i].command), ratios[i])
    {
      assert calls[..n + 1][..n] == calls[..n];
      var fullPass := sidecar.AdaptiveFullPass(session, home, calls[n], ratios[n], true);
      passed := passed + [fullPass];
    }
    assert calls[..|calls|] == calls;
    file := sidecar.file;
  }
}
