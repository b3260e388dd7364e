// Re-keying of sessions without a thread identity onto local Codex threads
// (resolveLocalCodexFallbackSessions in cmd/slimference/savings_cmd.go).
module SavingsFallback {
  import opened Strs
  import opened MapSums
  import opened SavingsSums
  import opened SavingsBilling
  import opened SavingsRows
  import opened SavingsMoves

  datatype Thread = Thread(id: string, displayName: string, projectPath: string, clientFamily: string)

  datatype Resolution = Resolved(thread: Thread) | Unresolved(reason: string)

  // The window of local threads: the lookup failed, found none, or found some.
  datatype Lookup = LookupFailed | NoThreads | Threads

  // Matching a session's facts against the threads found; it does not read the reason.
  type Resolver = Facts -> Resolution

  predicate Needs(f: Facts) {
    f.candidates != 0 && f.attributed <= 0
    && ("fh:" <= TrimSpace(f.sessionID) || "no-session:" <= TrimSpace(f.sessionID))
  }

  // Codex requests without an attributed one, and a name of the two anonymous kinds.
  lemma NeedsMeans(f: Facts)
    ensures var anonymous := OccursAt(TrimSpace(f.sessionID), "fh:", 0)
        || OccursAt(TrimSpace(f.sessionID), "no-session:", 0);
      Needs(f) <==> f.candidates != 0 && f.attributed <= 0 && anonymous
  {
    hide TrimSpace;
    var id := TrimSpace(f.sessionID);
    assert |id| >= 3 ==> id[0..0 + 3] == id[..3];
    assert |id| >= 11 ==> id[0..0 + 11] == id[..11];
  }

  function Resolve(resolve: Resolver, f: Facts): Resolution {
    resolve(f.(reason := ""))
  }

  function LocalID(t: Thread): string {
    "codex-local:" + TrimSpace(t.id)
  }

  predicate Moves(rows: Rows, f: Facts, lookup: Lookup, resolve: Resolver) {
    lookup.Threads? && Needs(f) && f.sessionID in rows
    && Resolve(resolve, f).Resolved? && TrimSpace(Resolve(resolve, f).thread.id) != ""
  }

  // Facts are filed under the session they describe.
  predicate Filed(facts: FactTable) {
    forall k :: k in facts ==> facts[k].sessionID == k && facts[k].candidates >= 0
  }

  // Which sessions move, and under which key they are filed then. This does not depend
  // on the order in which the map is ranged.
  function Targets(rows: Rows, facts: FactTable, lookup: Lookup, resolve: Resolver): map<string, string> {
    map k | k in facts && Moves(rows, facts[k], lookup, resolve) :: LocalID(Resolve(resolve, facts[k]).thread)
  }

  function PlanOf(rows: Rows, facts: FactTable, lookup: Lookup, resolve: Resolver): Plan<SessionRow> {
    Plan(rows, facts, Targets(rows, facts, lookup, resolve))
  }

  // A session that needs a thread is never filed under a local thread's name.
  lemma NeedyIsNotLocal(f: Facts, t: Thread)
    requires Needs(f)
    ensures f.sessionID != LocalID(t)
  {
    var local := LocalID(t);
    assert local[0] == 'c' && TrimLeft(local) == local;
    var trimmed := TrimSpace(f.sessionID);
    assert trimmed != "" && trimmed[0] == TrimLeft(f.sessionID)[0];
    assert trimmed[0] == 'f' || trimmed[0] == 'n';
  }

  lemma PlanIsSound(rows: Rows, facts: FactTable, lookup: Lookup, resolve: Resolver)
    requires Filed(facts)
    ensures Sound(PlanOf(rows, facts, lookup, resolve))
  {
    var p := PlanOf(rows, facts, lookup, resolve);
    forall j, k | j in p.target && k in p.target
      ensures p.target[k] != j
    {
      NeedyIsNotLocal(facts[j], Resolve(resolve, facts[k]).thread);
    }
  }

  // What holds of the tables once the sessions in `moved` have moved.
  ghost predicate Progress(p: Plan<SessionRow>, moved: set<string>, rows: Rows, facts: FactTable) {
    moved <= p.target.Keys
    && RowsKept(p, moved, rows) && GoodRows(rows)
    && (forall f :: RowsSummed(p, moved, rows, By(f)))
    && FactsAfter(p, moved, facts)
    && Conserved(p.rows, rows)
    && BilledAtMost(p.rows, rows)
  }

  // Every field keeps its sum over all sessions.
  ghost predicate Conserved(before: Rows, after: Rows) {
    forall f :: Total(after, By(f)) == Total(before, By(f))
  }

  // At any price ratio the sessions together are billed no more than before.
  ghost predicate BilledAtMost(before: Rows, after: Rows) {
    Billable(before) ==>
      Billable(after) && forall ratio :: Total(after, ByBill(ratio)) <= Total(before, ByBill(ratio))
  }

  // The row to be filed at a target: the moved one, merged into what was there.
  ghost predicate MergesInto(rows: Rows, k: string, t: string, row: SessionRow)
    requires k in rows
  {
    row.sessionID == t && Good(row.sums)
    && (forall f :: By(f)(row) == By(f)(rows[k]) + if t in rows then By(f)(rows[t]) else 0)
  }

  lemma MergedAmounts(p: Plan<SessionRow>, moved: set<string>, rows: Rows, k: string, row: SessionRow, f: Field)
    requires Sound(p) && moved <= p.target.Keys && k in p.target && k !in moved
    requires RowsKept(p, moved, rows) && RowsSummed(p, moved, rows, By(f))
    requires k in rows && By(f)(row) == By(f)(rows[k]) + if p.target[k] in rows then By(f)(rows[p.target[k]]) else 0
    ensures RowsSummed(p, moved + {k}, (rows - {k})[p.target[k] := row], By(f))
    ensures Total((rows - {k})[p.target[k] := row], By(f)) == Total(rows, By(f))
  {
    StillHome(p, moved, rows, k);
    MoveAmount(p, moved, rows, k, row, By(f));
    MoveConserves(p, moved, rows, k, row, By(f));
  }

  // A session that has not moved yet still has its original row.
  lemma StillHome(p: Plan<SessionRow>, moved: set<string>, rows: Rows, k: string)
    requires Sound(p) && moved <= p.target.Keys && k in p.target && k !in moved
    requires RowsKept(p, moved, rows)
    ensures k in rows && rows[k] == p.rows[k]
  {
  }

  lemma MergedBill(rows: Rows, k: string, t: string, row: SessionRow, ratio: real)
    requires k in rows && t != k && MergesInto(rows, k, t, row) && Billable(rows)
    ensures Counts0(BillOf(row.sums))
    ensures ByBill(ratio)(row) <= ByBill(ratio)(rows[k]) + if t in rows then ByBill(ratio)(rows[t]) else 0
  {
    var dst := if t in rows then rows[t].sums else ZERO;
    forall f
      ensures Amount(row.sums, f) == Amount(dst, f) + Amount(rows[k].sums, f)
    {
      assert By(f)(row) == Amount(row.sums, f);
    }
    MergedRow(dst, rows[k].sums, row.sums, ratio);
  }

  lemma MoveAmounts(p: Plan<SessionRow>, moved: set<string>, rows: Rows, k: string, row: SessionRow)
    requires Sound(p) && moved <= p.target.Keys && k in p.target && k !in moved
    requires RowsKept(p, moved, rows) && (forall f :: RowsSummed(p, moved, rows, By(f)))
    requires Conserved(p.rows, rows)
    requires k in rows && MergesInto(rows, k, p.target[k], row)
    ensures forall f :: RowsSummed(p, moved + {k}, (rows - {k})[p.target[k] := row], By(f))
    ensures Conserved(p.rows, (rows - {k})[p.target[k] := row])
  {
    forall f
      ensures RowsSummed(p, moved + {k}, (rows - {k})[p.target[k] := row], By(f))
      ensures Total((rows - {k})[p.target[k] := row], By(f)) == Total(p.rows, By(f))
    {
      MergedAmounts(p, moved, rows, k, row, f);
    }
  }

  lemma MoveBill(before: Rows, rows: Rows, k: string, t: string, row: SessionRow)
    requires k in rows && t != k && MergesInto(rows, k, t, row)
    requires BilledAtMost(before, rows)
    ensures BilledAtMost(before, (rows - {k})[t := row])
  {
    if Billable(before) {
      MergedBill(rows, k, t, row, 0.0);
      forall ratio
        ensures Total((rows - {k})[t := row], ByBill(ratio)) <= Total(before, ByBill(ratio))
      {
        MergedBill(rows, k, t, row, ratio);
        TotalUpdate(rows, ByBill(ratio), k, rows[k]);
        TotalUpdate(rows - {k}, ByBill(ratio), t, row);
      }
    }
  }

  lemma MovedElsewhere(p: Plan<SessionRow>, k: string)
    requires Sound(p) && k in p.target
    ensures p.target[k] != k && k in p.facts
  {
  }

  lemma MoveOne(p: Plan<SessionRow>, moved: set<string>, rows: Rows, facts: FactTable, k: string,
                row: SessionRow, next: Facts)
    requires Sound(p) && k in p.target && k !in moved && Progress(p, moved, rows, facts)
    requires k in rows && MergesInto(rows, k, p.target[k], row)
    requires next.candidates == next.attributed == p.facts[k].candidates
    ensures Progress(p, moved + {k}, (rows - {k})[p.target[k] := row], (facts - {k})[p.target[k] := next])
  {
    hide RowsKept, RowsSummed, FactsAfter, Conserved, BilledAtMost, Good, Sound;
    MovedElsewhere(p, k);
    MoveRow(p, moved, rows, k, row);
    MoveFacts(p, moved, facts, k, next);
    MoveAmounts(p, moved, rows, k, row);
    MoveBill(p.rows, rows, k, p.target[k], row);
  }

  lemma NoMoveYet(p: Plan<SessionRow>)
    requires Sound(p) && GoodRows(p.rows)
    ensures Progress(p, {}, p.rows, p.facts)
  {
    NothingMoved(p, By(Requests));
    forall f
      ensures RowsSummed(p, {}, p.rows, By(f))
    {
      NothingMoved(p, By(f));
    }
  }

  // ---- the code ----

  function WithThread(row: SessionRow, t: Thread): SessionRow {
    row.(displayName := FirstNonEmpty(t.displayName, row.displayName),
         projectPath := FirstNonEmpty(t.projectPath, row.projectPath),
         clientFamily := FirstNonEmpty(t.clientFamily, row.clientFamily))
  }

  // Merge the row of session k into the one filed under the thread, if there is one.
  method RowAt(rows: Rows, k: string, t: Thread) returns (row: SessionRow)
    requires GoodRows(rows) && k in rows && LocalID(t) != k
    ensures MergesInto(rows, k, LocalID(t), row)
    ensures row.sessionID == if LocalID(t) in rows then rows[LocalID(t)].sessionID else LocalID(t)
  {
    if LocalID(t) in rows {
      row := MergeSession(rows[LocalID(t)], rows[k]);
    } else {
      row := rows[k].(sessionID := LocalID(t));
    }
    row := WithThread(row, t);
  }

  function MovedFacts(f: Facts, t: Thread): Facts {
    Facts(LocalID(t), FirstNonEmpty(t.clientFamily, f.clientFamily), f.candidates, f.candidates, f.reason)
  }

  // What the thread says replaces what the session says, and its name is the local one.
  lemma ThreadReads(row: SessionRow, f: Facts, t: Thread)
    ensures LocalID(t) == "codex-local:" + TrimSpace(t.id)
    ensures var r := WithThread(row, t);
      && r.sessionID == row.sessionID && r.routeMode == row.routeMode && r.sums == row.sums
      && (t.displayName != "" ==> r.displayName == t.displayName)
      && (t.displayName == "" ==> r.displayName == row.displayName)
      && (t.projectPath != "" ==> r.projectPath == t.projectPath)
      && (t.projectPath == "" ==> r.projectPath == row.projectPath)
      && (t.clientFamily != "" ==> r.clientFamily == t.clientFamily)
      && (t.clientFamily == "" ==> r.clientFamily == row.clientFamily)
    ensures var g := MovedFacts(f, t);
      && g.sessionID == "codex-local:" + TrimSpace(t.id) && g.reason == f.reason
      && g.candidates == g.attributed == f.candidates
      && (t.clientFamily != "" ==> g.clientFamily == t.clientFamily)
      && (t.clientFamily == "" ==> g.clientFamily == f.clientFamily)
  {
  }

  predicate NeedsLookup(facts: FactTable) {
    exists k :: k in facts && Needs(facts[k])
  }

  // Sessions that need a thread are told why they did not get one.
  method MarkFailure(facts: FactTable, reason: string) returns (r: FactTable)
    ensures r.Keys == facts.Keys
    ensures forall k :: k in facts ==> r[k] == if Needs(facts[k]) then facts[k].(reason := reason) else facts[k]
    ensures forall k :: k in r ==> SameButReason(r[k], facts[k])
  {
    r := map k | k in facts :: if Needs(facts[k]) then facts[k].(reason := reason) else facts[k];
  }

  // A session that still needs a thread has not been touched but for its reason, so it
  // moves exactly if the plan says so.
  lemma StillPlanned(p: Plan<SessionRow>, moved: set<string>, rows: Rows, facts: FactTable, k: string,
                     lookup: Lookup, resolve: Resolver)
    requires p == PlanOf(p.rows, p.facts, lookup, resolve) && Filed(p.facts)
    requires Progress(p, moved, rows, facts)
    requires k in facts && Needs(facts[k])
    ensures k !in Landed(p, moved) && k !in moved && k in p.facts
    ensures facts[k].sessionID == k && facts[k].candidates == p.facts[k].candidates
    ensures Moves(rows, facts[k], lookup, resolve) <==> k in p.target
    ensures k in p.target ==> p.target[k] == LocalID(Resolve(resolve, facts[k]).thread)
  {
    hide RowsSummed, Conserved, BilledAtMost, Good, TargetsFresh;
    assert facts[k].(reason := "") == p.facts[k].(reason := "");
    assert k in rows <==> k in p.rows;
  }

  lemma ReasonAside(p: Plan<SessionRow>, moved: set<string>, rows: Rows, facts: FactTable, k: string, reason: string)
    requires Progress(p, moved, rows, facts) && k in facts && k !in Landed(p, moved)
    ensures Progress(p, moved, rows, facts[k := facts[k].(reason := reason)])
  {
    hide RowsKept, RowsSummed, GoodRows, Conserved, BilledAtMost, TargetsFresh;
    TotalSame(facts[k := facts[k].(reason := reason)], facts, Candidates());
  }

  method VisitSession(ghost p: Plan<SessionRow>, ghost moved: set<string>, rows: Rows, facts: FactTable,
                      todo: set<string>, k: string, lookup: Lookup, resolve: Resolver)
    returns (ghost moved': set<string>, rows': Rows, facts': FactTable, todo': set<string>)
    requires p == PlanOf(p.rows, p.facts, lookup, resolve) && Filed(p.facts) && lookup.Threads?
    requires Sound(p) && Progress(p, moved, rows, facts)
    requires k in facts && todo <= facts.Keys && k !in todo && p.target.Keys - moved <= todo + {k}
    ensures Progress(p, moved', rows', facts')
    ensures todo' <= facts'.Keys && p.target.Keys - moved' <= todo'
    ensures (moved' == moved && todo' == todo) || (k in p.target && k !in moved && moved' == moved + {k})
  {
    hide Progress, Needs;
    moved', rows', facts', todo' := moved, rows, facts, todo;
    StillNeedy(p, moved, rows, facts, k, lookup, resolve);
    if !Needs(facts[k]) {
      return;
    }
    StillPlanned(p, moved, rows, facts, k, lookup, resolve);
    var resolution := Resolve(resolve, facts[k]);
    if resolution.Unresolved? || TrimSpace(resolution.thread.id) == "" {
      var reason := if resolution.Unresolved? then resolution.reason else "";
      facts' := facts[k := facts[k].(reason := reason)];
      ReasonAside(p, moved, rows, facts, k, reason);
      return;
    }
    if k !in rows {
      return;
    }
    moved' := moved + {k};
    rows', facts' := MoveSession(p, moved, rows, facts, k, resolution.thread);
    // An entry inserted on the way may or may not be visited.
    var visited: bool :| true;
    if visited && LocalID(resolution.thread) !in facts {
      todo' := todo + {LocalID(resolution.thread)};
    }
  }

  method MoveSession(ghost p: Plan<SessionRow>, ghost moved: set<string>, rows: Rows, facts: FactTable,
                     k: string, thread: Thread)
    returns (rows': Rows, facts': FactTable)
    requires Sound(p) && Progress(p, moved, rows, facts)
    requires k in p.target && k !in moved && k in facts && p.target[k] == LocalID(thread)
    requires facts[k].candidates == p.facts[k].candidates
    ensures Progress(p, moved + {k}, rows', facts')
    ensures facts'.Keys == facts.Keys - {k} + {LocalID(thread)}
  {
    StillHome(p, moved, rows, k);
    var row := RowAt(rows, k, thread);
    var next := MovedFacts(facts[k], thread);
    MoveOne(p, moved, rows, facts, k, row, next);
    rows' := (rows - {k})[LocalID(thread) := row];
    facts' := (facts - {k})[LocalID(thread) := next];
  }

  lemma StillNeedy(p: Plan<SessionRow>, moved: set<string>, rows: Rows, facts: FactTable, k: string,
                   lookup: Lookup, resolve: Resolver)
    requires p == PlanOf(p.rows, p.facts, lookup, resolve) && Sound(p)
    requires Progress(p, moved, rows, facts) && k in facts
    ensures k in p.target && k !in moved ==> Needs(facts[k])
  {
    hide RowsKept, RowsSummed, GoodRows, Conserved, BilledAtMost, TargetsFresh;
    if k in p.target && k !in moved {
      assert k !in Landed(p, moved);
      assert facts[k].(reason := "") == p.facts[k].(reason := "");
    }
  }

  // Without threads to match, rows stay where they are and only reasons are noted.
  lemma OnlyReasons(p: Plan<SessionRow>, facts: FactTable)
    requires Progress(p, {}, p.rows, p.facts)
    requires facts.Keys == p.facts.Keys && forall k :: k in facts ==> SameButReason(facts[k], p.facts[k])
    ensures Progress(p, {}, p.rows, facts)
  {
    TotalSame(facts, p.facts, Candidates());
  }

  // Go ranges over the facts in no fixed order, and entries inserted on the way may or
  // may not be visited. Whatever happens, the sessions that move and the amounts that
  // arrive are those of the plan, and nothing is lost on the way.
  method ResolveFallbackSessions(rows: Rows, facts: FactTable, lookup: Lookup, resolve: Resolver)
    returns (rows': Rows, facts': FactTable)
    requires GoodRows(rows) && Filed(facts)
    ensures var p := PlanOf(rows, facts, lookup, resolve); Progress(p, p.target.Keys, rows', facts')
    ensures Total(facts', Candidates()) <= Total(facts, Candidates())
    ensures Total(facts', Candidates()) == Total(facts, Candidates())
       <==> FreshThreads(facts, Targets(rows, facts, lookup, resolve))
  {
    hide Progress, PlanOf, FreshThreads, Targets;
    ghost var p := PlanOf(rows, facts, lookup, resolve);
    PlanParts(rows, facts, lookup, resolve);
    PlanIsSound(rows, facts, lookup, resolve);
    NoMoveYet(p);
    rows', facts' := rows, facts;
    if !NeedsLookup(facts) {
      assert p.target.Keys == {};
      CodexRequestsConservedIff(p, rows', facts');
      return;
    }
    if !lookup.Threads? {
      facts' := MarkFailure(facts,
        if lookup.LookupFailed? then "metadata_lookup_error" else "no_local_thread_candidates");
      OnlyReasons(p, facts');
      assert p.target.Keys == {};
      CodexRequestsConservedIff(p, rows', facts');
      return;
    }
    rows', facts' := RangeOverFacts(p, lookup, resolve, rows, facts);
    CodexRequestsConservedIff(p, rows', facts');
  }

  lemma PlanParts(rows: Rows, facts: FactTable, lookup: Lookup, resolve: Resolver)
    ensures var p := PlanOf(rows, facts, lookup, resolve);
      p.rows == rows && p.facts == facts && p.target == Targets(rows, facts, lookup, resolve)
    ensures !NeedsLookup(facts) || !lookup.Threads? ==> PlanOf(rows, facts, lookup, resolve).target == map[]
  {
  }

  method RangeOverFacts(ghost p: Plan<SessionRow>, lookup: Lookup, resolve: Resolver, rows: Rows, facts: FactTable)
    returns (rows': Rows, facts': FactTable)
    requires p == PlanOf(rows, facts, lookup, resolve) && Filed(facts) && lookup.Threads?
    requires Sound(p) && Progress(p, {}, rows, facts)
    ensures Progress(p, p.target.Keys, rows', facts')
  {
    hide Progress, Needs, Moves, Targets, Filed;
    rows', facts' := rows, facts;
    ghost var moved: set<string> := {};
    var todo := facts.Keys;
    while todo != {}
      invariant Progress(p, moved, rows', facts') && moved <= p.target.Keys
      invariant todo <= facts'.Keys
      invariant p.target.Keys - moved <= todo
      decreases p.target.Keys - moved, |todo|
    {
      var k :| k in todo;
      moved, rows', facts', todo := VisitSession(p, moved, rows', facts', todo - {k}, k, lookup, resolve);
    }
    assert p.target.Keys <= moved by {
      forall k | k in p.target.Keys
        ensures k in moved
      {
        assert k !in p.target.Keys - moved;
      }
    }
    assert moved == p.target.Keys;
  }

  // The moved sessions go to distinct threads that had no Codex requests of their own.
  predicate FreshThreads(facts: FactTable, target: map<string, string>) {
    && (forall j, k :: j in target && k in target && j != k ==> target[j] != target[k])
    && (forall k :: k in target && target[k] in facts ==> facts[target[k]].candidates == 0)
  }

  // Codex requests in the facts are conserved exactly when the moved sessions go to
  // distinct threads that had no Codex requests of their own.
  lemma CodexRequestsConservedIff(p: Plan<SessionRow>, rows: Rows, facts: FactTable)
    requires Progress(p, p.target.Keys, rows, facts)
    ensures Total(facts, Candidates()) <= Total(p.facts, Candidates())
    ensures Total(facts, Candidates()) == Total(p.facts, Candidates()) <==> FreshThreads(p.facts, p.target)
  {
    hide RowsKept, RowsSummed, GoodRows, Conserved, BilledAtMost, FactsKept;
  }

  // Two sessions do resolve to one thread, and then the requests of one of them are lost.
  lemma SharedThreadLosesRequests(row: SessionRow, t: Thread, rows: Rows, facts: FactTable)
    requires TrimSpace(t.id) != ""
    requires var p := SharedThread(row, t); Progress(p, p.target.Keys, rows, facts)
    ensures Total(facts, Candidates()) < Total(SharedThread(row, t).facts, Candidates())
  {
    hide Progress, PlanOf, SharedThread;
    var p := SharedThread(row, t);
    SharedTargets(row, t);
    assert "fh:a" != "fh:b";
    CodexRequestsConservedIff(p, rows, facts);
  }

  lemma SharedTargets(row: SessionRow, t: Thread)
    requires TrimSpace(t.id) != ""
    ensures var target := SharedThread(row, t).target;
      "fh:a" in target && "fh:b" in target && target["fh:a"] == target["fh:b"]
  {
    var p := SharedThread(row, t);
    NeedyByName(p.facts["fh:a"]);
    NeedyByName(p.facts["fh:b"]);
    hide Needs;
  }

  function SharedThread(row: SessionRow, t: Thread): Plan<SessionRow> {
    PlanOf(map["fh:a" := row, "fh:b" := row],
           map["fh:a" := Facts("fh:a", "codex", 1, 0, ""), "fh:b" := Facts("fh:b", "codex", 1, 0, "")],
           Threads, _ => Resolved(t))
  }

  lemma NeedyByName(f: Facts)
    requires f.candidates > 0 && f.attributed == 0 && (f.sessionID == "fh:a" || f.sessionID == "fh:b")
    ensures Needs(f)
  {
    assert TrimLeft(f.sessionID) == f.sessionID == TrimRight(f.sessionID);
  }
}
