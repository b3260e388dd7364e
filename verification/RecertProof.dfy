// The proof gates of recertification (cmd/slimference/codex_recert.go and codex_cmd.go)
// over counters that start again at zero when the daemon restarts.
module RecertProof {

  datatype Counter =
    | MitmBridged | BytesC2S | BytesS2C | C2SFrames | S2CFrames | ParseFailures | DegradedSessions
    | FramesReencoded | FramesForwarded | CompressedMutated | CompressionErrors

  type Counters = Counter -> int

  datatype Setup = Setup(
    counters: Counters,
    engineActive: bool,
    daemonReachable: bool,
    mutationActive: bool,
    byteBridgeOnly: bool)

  // ---- the difference of two readings ----

  function CounterDelta(before: int, after: int): int {
    if after >= before then after - before else after
  }

  function SetupDelta(before: Setup, after: Setup): Setup {
    var counters := c => CounterDelta(before.counters(c), after.counters(c));
    after.(counters := counters,
           mutationActive := counters(FramesReencoded) > 0,
           byteBridgeOnly := counters(FramesReencoded) == 0 && counters(FramesForwarded) > 0)
  }

  // ---- what really happened ----

  datatype Event = Grow(counter: Counter, amount: nat) | Restart

  // What a counter reads after the events, from a first reading.
  function Reading(first: nat, events: seq<Event>, c: Counter): nat {
    if events == [] then first
    else
      var n := |events| - 1;
      match events[n]
      case Restart => 0
      case Grow(d, amount) => Reading(first, events[..n], c) + if d == c then amount else 0
  }

  // All its increments.
  function Total(events: seq<Event>, c: Counter): nat {
    if events == [] then 0
    else
      var n := |events| - 1;
      Total(events[..n], c) + if events[n].Grow? && events[n].counter == c then events[n].amount else 0
  }

  // The increments that a restart has wiped out.
  function Wiped(events: seq<Event>, c: Counter): nat {
    if events == [] then 0
    else
      var n := |events| - 1;
      if events[n].Restart? then Total(events[..n], c) else Wiped(events[..n], c)
  }

  predicate Restarted(events: seq<Event>) {
    Restart in events
  }

  lemma {:induction false} ReadingMeans(first: nat, events: seq<Event>, c: Counter)
    ensures Wiped(events, c) <= Total(events, c)
    ensures Reading(first, events, c) == Total(events, c) - Wiped(events, c) + if Restarted(events) then 0 else first
    ensures !Restarted(events) ==> Wiped(events, c) == 0
  {
    hide Restarted;
    if events == [] {
      NoRestart();
    } else {
      var n := |events| - 1;
      ReadingMeans(first, events[..n], c);
      RestartedLast(events, n);
    }
  }

  lemma NoRestart()
    ensures !Restarted([])
  {
  }

  lemma RestartedLast(events: seq<Event>, n: nat)
    requires |events| == n + 1
    ensures Restarted(events) == (Restarted(events[..n]) || events[n].Restart?)
  {
    assert events == events[..n] + [events[n]];
  }

  // No restart, or nothing counted before the last one and a new count that cannot be
  // taken for growth of the old one.
  predicate Exact(first: nat, events: seq<Event>, c: Counter) {
    !Restarted(events) || (Wiped(events, c) == 0 && (first == 0 || Reading(first, events, c) < first))
  }

  // The difference never exceeds what happened.
  lemma DeltaIsLower(first: nat, events: seq<Event>, c: Counter)
    ensures 0 <= CounterDelta(first, Reading(first, events, c)) <= Total(events, c)
  {
    ReadingMeans(first, events, c);
  }

  // It is what happened if and only if the readings are exact in this sense.
  lemma DeltaExactIff(first: nat, events: seq<Event>, c: Counter)
    ensures CounterDelta(first, Reading(first, events, c)) == Total(events, c) <==> Exact(first, events, c)
  {
    ReadingMeans(first, events, c);
  }

  // ---- the gates ----

  datatype Criterion = Criterion(name: string, pass: bool)

  function PhaseFCriteria(s: Setup): seq<Criterion> {
    [Criterion("wss.parse_failures", s.counters(ParseFailures) == 0),
     Criterion("wss.degraded_sessions", s.counters(DegradedSessions) == 0),
     Criterion("wss.compression_errors", s.counters(CompressionErrors) == 0),
     Criterion("wss.frames_reencoded", s.counters(FramesReencoded) > 0),
     Criterion("wss.compressed_messages_mutated", s.counters(CompressedMutated) > 0),
     Criterion("wss.mutation_active", s.mutationActive),
     Criterion("wss.byte_bridge_only", !s.byteBridgeOnly),
     Criterion("codex_route.daemon_reachable", s.daemonReachable)]
  }

  function BridgeCriteria(s: Setup): seq<Criterion> {
    [Criterion("wss.engine_active", s.engineActive),
     Criterion("wss.mitm_bridged", s.counters(MitmBridged) > 0),
     Criterion("wss.bytes_c2s", s.counters(BytesC2S) > 0),
     Criterion("wss.bytes_s2c", s.counters(BytesS2C) > 0),
     Criterion("wss.frames", s.counters(C2SFrames) + s.counters(S2CFrames) + s.counters(FramesForwarded) > 0),
     Criterion("wss.frames_reencoded", s.counters(FramesReencoded) == 0),
     Criterion("wss.compressed_messages_mutated", s.counters(CompressedMutated) == 0),
     Criterion("wss.parse_failures", s.counters(ParseFailures) == 0),
     Criterion("wss.degraded_sessions", s.counters(DegradedSessions) == 0),
     Criterion("wss.compression_errors", s.counters(CompressionErrors) == 0),
     Criterion("codex_route.daemon_reachable", s.daemonReachable)]
  }

  predicate Passes(criteria: seq<Criterion>) {
    forall i :: 0 <= i < |criteria| ==> criteria[i].pass
  }

  // The failed criteria, once each and in order; at lists where they stand.
  method Failures(criteria: seq<Criterion>) returns (failures: seq<string>, ghost at: seq<nat>)
    ensures forall i, j :: 0 <= i < j < |at| ==> at[i] < at[j]
    ensures forall i: nat :: i in at <==> i < |criteria| && !criteria[i].pass
    ensures |failures| == |at|
    ensures forall j :: 0 <= j < |at| ==> at[j] < |criteria| && failures[j] == criteria[at[j]].name
    ensures failures == [] <==> Passes(criteria)
  {
    failures, at := [], [];
    for n := 0 to |criteria|
      invariant forall i, j :: 0 <= i < j < |at| ==> at[i] < at[j]
      invariant forall i: nat :: i in at <==> i < n && !criteria[i].pass
      invariant |failures| == |at|
      invariant forall j :: 0 <= j < |at| ==> at[j] < n && failures[j] == criteria[at[j]].name
    {
      if !criteria[n].pass {
        failures, at := failures + [criteria[n].name], at + [n];
      }
    }
    assert at != [] ==> at[0] in at;
  }

  // ---- the gates in terms of the two readings ----

  // The difference shows nothing: the reading is the same, or zero again.
  predicate Still(before: int, after: int) {
    after == before || after == 0
  }

  predicate IsStill(before: Setup, after: Setup, c: Counter) {
    Still(before.counters(c), after.counters(c))
  }

  lemma DeltaShows(before: nat, after: nat)
    ensures CounterDelta(before, after) >= 0 && (CounterDelta(before, after) == 0 <==> Still(before, after))
  {
  }

  ghost predicate Counted(s: Setup) {
    forall c :: s.counters(c) >= 0
  }

  lemma SetupShows(before: Setup, after: Setup)
    requires Counted(before) && Counted(after)
    ensures var d := SetupDelta(before, after);
      && (forall c :: d.counters(c) >= 0 && (d.counters(c) == 0 <==> IsStill(before, after, c)))
      && d.engineActive == after.engineActive && d.daemonReachable == after.daemonReachable
      && d.mutationActive == !IsStill(before, after, FramesReencoded)
      && d.byteBridgeOnly == (IsStill(before, after, FramesReencoded) && !IsStill(before, after, FramesForwarded))
  {
    forall c ensures var d := SetupDelta(before, after).counters(c); d >= 0 && (d == 0 <==> IsStill(before, after, c)) {
      DeltaShows(before.counters(c), after.counters(c));
    }
  }

  // On a difference of readings, the gates ask this of the counters.
  lemma GatesOnDelta(before: Setup, after: Setup)
    ensures var d := SetupDelta(before, after);
      var unbroken := d.counters(ParseFailures) == d.counters(DegradedSessions) == d.counters(CompressionErrors) == 0;
      && (Passes(PhaseFCriteria(d)) <==>
            unbroken && d.counters(FramesReencoded) > 0 && d.counters(CompressedMutated) > 0 && after.daemonReachable)
      && (Passes(BridgeCriteria(d)) <==>
            unbroken && d.counters(FramesReencoded) == 0 && d.counters(CompressedMutated) == 0 && after.daemonReachable
            && after.engineActive && d.counters(MitmBridged) > 0 && d.counters(BytesC2S) > 0 && d.counters(BytesS2C) > 0
            && d.counters(C2SFrames) + d.counters(S2CFrames) + d.counters(FramesForwarded) > 0)
  {
    GatesAsk(SetupDelta(before, after));
  }

  // No failure, re-encoding or mutation is hidden by either gate: this is all they ask of
  // two readings.
  lemma GatesOnReadings(before: Setup, after: Setup)
    requires Counted(before) && Counted(after)
    ensures var d := SetupDelta(before, after);
      var unbroken := IsStill(before, after, ParseFailures) && IsStill(before, after, DegradedSessions)
        && IsStill(before, after, CompressionErrors);
      var forwarded := IsStill(before, after, FramesReencoded) && IsStill(before, after, CompressedMutated);
      && (Passes(PhaseFCriteria(d)) <==>
            unbroken && !IsStill(before, after, FramesReencoded) && !IsStill(before, after, CompressedMutated)
            && after.daemonReachable)
      && (Passes(BridgeCriteria(d)) <==>
            unbroken && forwarded && after.daemonReachable && after.engineActive
            && !IsStill(before, after, MitmBridged) && !IsStill(before, after, BytesC2S)
            && !IsStill(before, after, BytesS2C)
            && !(IsStill(before, after, C2SFrames) && IsStill(before, after, S2CFrames)
                 && IsStill(before, after, FramesForwarded)))
  {
    hide SetupDelta, IsStill;
    var d := SetupDelta(before, after);
    SetupShows(before, after);
    GatesAsk(d);
  }

  lemma GatesAsk(d: Setup)
    ensures
      var unbroken := d.counters(ParseFailures) == d.counters(DegradedSessions) == d.counters(CompressionErrors) == 0;
      && (Passes(PhaseFCriteria(d)) <==>
            unbroken && d.counters(FramesReencoded) > 0 && d.counters(CompressedMutated) > 0 && d.mutationActive
            && !d.byteBridgeOnly && d.daemonReachable)
      && (Passes(BridgeCriteria(d)) <==>
            unbroken && d.counters(FramesReencoded) == 0 && d.counters(CompressedMutated) == 0 && d.daemonReachable
            && d.engineActive && d.counters(MitmBridged) > 0 && d.counters(BytesC2S) > 0 && d.counters(BytesS2C) > 0
            && d.counters(C2SFrames) + d.counters(S2CFrames) + d.counters(FramesForwarded) > 0)
  {
    var f, b := PhaseFCriteria(d), BridgeCriteria(d);
    if Passes(f) {
      assert f[0].pass && f[1].pass && f[2].pass && f[3].pass && f[4].pass && f[5].pass && f[6].pass && f[7].pass;
    }
    if Passes(b) {
      assert b[0].pass && b[1].pass && b[2].pass && b[3].pass && b[4].pass && b[5].pass;
      assert b[6].pass && b[7].pass && b[8].pass && b[9].pass && b[10].pass;
    }
  }

  // ---- the gates in terms of what happened ----

  // Two readings with the events between them.
  ghost predicate Observed(before: Setup, events: seq<Event>, after: Setup) {
    forall c :: before.counters(c) >= 0 && after.counters(c) == Reading(before.counters(c), events, c)
  }

  // A passed Phase-F proof shows that frames were re-encoded and messages mutated in the
  // window, restarts or not.
  lemma PhaseFMeansMutation(before: Setup, events: seq<Event>, after: Setup)
    requires Observed(before, events, after) && Passes(PhaseFCriteria(SetupDelta(before, after)))
    ensures Total(events, FramesReencoded) > 0 && Total(events, CompressedMutated) > 0
    ensures after.daemonReachable
  {
    hide Reading, Total;
    var d := SetupDelta(before, after);
    assert PhaseFCriteria(d)[3].pass && PhaseFCriteria(d)[4].pass && PhaseFCriteria(d)[7].pass;
    DeltaIsLower(before.counters(FramesReencoded), events, FramesReencoded);
    DeltaIsLower(before.counters(CompressedMutated), events, CompressedMutated);
  }

  // A passed bridge proof shows bytes in both directions.
  lemma BridgeMeansTraffic(before: Setup, events: seq<Event>, after: Setup)
    requires Observed(before, events, after) && Passes(BridgeCriteria(SetupDelta(before, after)))
    ensures Total(events, BytesC2S) > 0 && Total(events, BytesS2C) > 0 && Total(events, MitmBridged) > 0
    ensures Total(events, C2SFrames) + Total(events, S2CFrames) + Total(events, FramesForwarded) > 0
  {
    hide Reading, Total;
    var d := SetupDelta(before, after);
    var b := BridgeCriteria(d);
    assert b[1].pass && b[2].pass && b[3].pass && b[4].pass;
    DeltaIsLower(before.counters(MitmBridged), events, MitmBridged);
    DeltaIsLower(before.counters(BytesC2S), events, BytesC2S);
    DeltaIsLower(before.counters(BytesS2C), events, BytesS2C);
    DeltaIsLower(before.counters(C2SFrames), events, C2SFrames);
    DeltaIsLower(before.counters(S2CFrames), events, S2CFrames);
    DeltaIsLower(before.counters(FramesForwarded), events, FramesForwarded);
  }

  // A passed gate shows that nothing went wrong, as far as the readings are exact; a bridge
  // proof also that nothing was re-encoded or mutated.
  lemma PassedMeansUnbroken(before: Setup, events: seq<Event>, after: Setup, c: Counter)
    requires Observed(before, events, after) && Exact(before.counters(c), events, c)
    ensures var failures := {ParseFailures, DegradedSessions, CompressionErrors};
      var changes := {FramesReencoded, CompressedMutated};
      && (Passes(PhaseFCriteria(SetupDelta(before, after))) && c in failures ==> Total(events, c) == 0)
      && (Passes(BridgeCriteria(SetupDelta(before, after))) && c in failures + changes ==> Total(events, c) == 0)
  {
    hide Reading, Total, Exact, CounterDelta;
    DeltaExactIff(before.counters(c), events, c);
    GatesAsk(SetupDelta(before, after));
  }

  // If all readings are exact, so without a restart always, the gates decide by what
  // happened in the window.
  lemma GatesOnWindow(before: Setup, events: seq<Event>, after: Setup)
    requires Observed(before, events, after) && forall c :: Exact(before.counters(c), events, c)
    ensures var d := SetupDelta(before, after);
      var unbroken := Total(events, ParseFailures) == Total(events, DegradedSessions)
        == Total(events, CompressionErrors) == 0;
      && (Passes(PhaseFCriteria(d)) <==>
            unbroken && Total(events, FramesReencoded) > 0 && Total(events, CompressedMutated) > 0
            && after.daemonReachable)
      && (Passes(BridgeCriteria(d)) <==>
            unbroken && Total(events, FramesReencoded) == 0 && Total(events, CompressedMutated) == 0
            && after.daemonReachable && after.engineActive && Total(events, MitmBridged) > 0
            && Total(events, BytesC2S) > 0 && Total(events, BytesS2C) > 0
            && Total(events, C2SFrames) + Total(events, S2CFrames) + Total(events, FramesForwarded) > 0)
  {
    hide Reading, Total, Exact, CounterDelta;
    forall c ensures SetupDelta(before, after).counters(c) == Total(events, c) {
      DeltaExactIff(before.counters(c), events, c);
    }
    GatesAsk(SetupDelta(before, after));
  }

  predicate Names(criteria: seq<Criterion>, i: nat, name: string, pass: bool) {
    i < |criteria| && criteria[i].name == name && criteria[i].pass == pass
  }

  // The names under which the failures of a state are listed, in this order.
  lemma PhaseFNames(s: Setup)
    ensures var f := PhaseFCriteria(s);
      && |f| == 8 && Names(f, 0, "wss.parse_failures", s.counters(ParseFailures) == 0)
      && Names(f, 1, "wss.degraded_sessions", s.counters(DegradedSessions) == 0)
      && Names(f, 2, "wss.compression_errors", s.counters(CompressionErrors) == 0)
      && Names(f, 3, "wss.frames_reencoded", s.counters(FramesReencoded) > 0)
      && Names(f, 4, "wss.compressed_messages_mutated", s.counters(CompressedMutated) > 0)
      && Names(f, 5, "wss.mutation_active", s.mutationActive)
      && Names(f, 6, "wss.byte_bridge_only", !s.byteBridgeOnly)
      && Names(f, 7, "codex_route.daemon_reachable", s.daemonReachable)
  {
  }

  lemma BridgeNames(s: Setup)
    ensures var b := BridgeCriteria(s);
      && |b| == 11 && Names(b, 0, "wss.engine_active", s.engineActive)
      && Names(b, 1, "wss.mitm_bridged", s.counters(MitmBridged) > 0)
      && Names(b, 2, "wss.bytes_c2s", s.counters(BytesC2S) > 0)
      && Names(b, 3, "wss.bytes_s2c", s.counters(BytesS2C) > 0)
      && Names(b, 4, "wss.frames", s.counters(C2SFrames) + s.counters(S2CFrames) + s.counters(FramesForwarded) > 0)
      && Names(b, 5, "wss.frames_reencoded", s.counters(FramesReencoded) == 0)
      && Names(b, 6, "wss.compressed_messages_mutated", s.counters(CompressedMutated) == 0)
      && Names(b, 7, "wss.parse_failures", s.counters(ParseFailures) == 0)
      && Names(b, 8, "wss.degraded_sessions", s.counters(DegradedSessions) == 0)
      && Names(b, 9, "wss.compression_errors", s.counters(CompressionErrors) == 0)
      && Names(b, 10, "codex_route.daemon_reachable", s.daemonReachable)
  {
  }

  // No readings pass both gates, so a run never writes both proofs.
  lemma NeverBoth(before: Setup, after: Setup)
    ensures !Passes(PhaseFCriteria(SetupDelta(before, after))) || !Passes(BridgeCriteria(SetupDelta(before, after)))
  {
    var d := SetupDelta(before, after);
    assert PhaseFCriteria(d)[3].pass != BridgeCriteria(d)[5].pass || d.counters(FramesReencoded) < 0;
  }

  // ---- what a zero shows ----

  // A difference of zero shows that nothing happened exactly when it is exact: a restart
  // can hide failures before it, and failures after it.
  lemma ZeroDeltaIff(first: nat, events: seq<Event>, c: Counter)
    requires CounterDelta(first, Reading(first, events, c)) == 0
    ensures Total(events, c) == 0 <==> Exact(first, events, c)
  {
    ReadingMeans(first, events, c);
  }

  lemma RestartHidesFailure()
    ensures var events := [Grow(ParseFailures, 1), Restart];
      CounterDelta(0, Reading(0, events, ParseFailures)) == 0 && Total(events, ParseFailures) == 1
  {
    var events := [Grow(ParseFailures, 1), Restart];
    assert events[..1][..0] == [];
  }
}
