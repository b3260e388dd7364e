// The whole decision report: log window, session rows, negative events, local
// threads, scorecards and routes, and what adds up across them
// (accumulateDecisionMechanismsFromDecisionLog in cmd/slimference/savings_cmd.go).
module SavingsReport {
  import opened Basics
  import opened MapSums
  import opened SavingsSums
  import opened SavingsRecords
  import opened SavingsBilling
  import opened SavingsRows
  import opened SavingsMoves
  import opened SavingsFallback
  import opened SavingsAttribution
  import opened SavingsLedger
  import opened SavingsRoutes

  datatype Totals = Totals(sums: Sums, effective: int, counterfactual: int, uncached: int)

  // Fields that the log loop did not add to the totals are taken from the finished row.
  method AddDerived(t: Sums, row: Sums) returns (r: Sums)
    requires Good(row)
    ensures forall f :: Amount(r, f) == Amount(t, f) + if Direct(f) then 0 else Amount(row, f)
  {
    var buckets := MergeBucketCounts(t.footprintBuckets, row.footprintBuckets);
    r := t.(
      layers := AddLayers(t.layers, row.layers),
      outputReduce := t.outputReduce + row.outputReduce,
      toolPrune := t.toolPrune + row.toolPrune,
      footprintScore := t.footprintScore + row.footprintScore,
      footprintBuckets := buckets,
      compounded := t.compounded + row.compounded);
  }

  function ShareSum(sessions: seq<Session>, x: Share): int {
    SumTo(Shares(sessions, x), |sessions|)
  }

  lemma Appended(sessions: seq<Session>, s: Session, x: Share)
    ensures SumTo(Shares(sessions + [s], x), |sessions| + 1) == SumTo(Shares(sessions, x), |sessions|) + ShareOf(s, x)
  {
    hide ShareOf;
    var more := Shares(sessions + [s], x);
    assert more[..|sessions|] == Shares(sessions, x)[..|sessions|];
    SumPrefix(more, Shares(sessions, x), |sessions|);
  }

  lemma {:induction false} SumPrefix(a: seq<int>, b: seq<int>, n: nat)
    requires n <= |a| && n <= |b| && a[..n] == b[..n]
    ensures SumTo(a, n) == SumTo(b, n)
  {
    if n > 0 {
      assert a[n - 1] == a[..n][n - 1] && b[n - 1] == b[..n][n - 1];
      assert a[..n - 1] == a[..n][..n - 1] && b[..n - 1] == b[..n][..n - 1];
      SumPrefix(a, b, n - 1);
    }
  }

  // Sessions finished so far, and rows still to finish, together make up the table.
  ghost predicate Split(rows: Rows, sessions: seq<Session>, rest: Rows) {
    forall f :: SumTo(Shares(sessions, Sum(f)), |sessions|) + Total(rest, By(f)) == Total(rows, By(f))
  }

  lemma SplitStep(rows: Rows, sessions: seq<Session>, rest: Rows, k: string, s: Session)
    requires Split(rows, sessions, rest) && k in rest && s.row == rest[k]
    ensures Split(rows, sessions + [s], rest - {k})
  {
    forall f
      ensures SumTo(Shares(sessions + [s], Sum(f)), |sessions| + 1) + Total(rest - {k}, By(f)) == Total(rows, By(f))
    {
      Appended(sessions, s, Sum(f));
      TotalRemove(rest, By(f), k);
      assert ShareOf(s, Sum(f)) == By(f)(rest[k]);
    }
  }

  // The totals over the sessions finished so far.
  ghost predicate TotalsOf(before: Sums, sessions: seq<Session>, t: Totals) {
    && (forall f :: Amount(t.sums, f) ==
         Amount(before, f) + if Direct(f) then 0 else SumTo(Shares(sessions, Sum(f)), |sessions|))
    && t.effective == SumTo(Shares(sessions, Effective), |sessions|)
    && t.counterfactual == SumTo(Shares(sessions, Counterfactual), |sessions|)
    && t.uncached == SumTo(Shares(sessions, Uncached), |sessions|)
  }

  method AddSession(ghost before: Sums, ghost sessions: seq<Session>, t: Totals, s: Session) returns (r: Totals)
    requires TotalsOf(before, sessions, t) && Good(s.row.sums)
    ensures TotalsOf(before, sessions + [s], r)
  {
    var sums := AddDerived(t.sums, s.row.sums);
    r := Totals(sums, t.effective + s.card.effective, t.counterfactual + s.card.counterfactual,
                t.uncached + s.card.uncached);
    forall x
      ensures SumTo(Shares(sessions + [s], x), |sessions| + 1) == SumTo(Shares(sessions, x), |sessions|) + ShareOf(s, x)
    {
      Appended(sessions, s, x);
    }
    hide Amount, Good;
    assert forall f :: ShareOf(s, Sum(f)) == Amount(s.row.sums, f);
  }

  function Ids(sessions: seq<Session>): seq<string> {
    seq(|sessions|, i requires 0 <= i < |sessions| => sessions[i].row.sessionID)
  }

  // The sessions are, one for one, the rows but those in rest, each with its scorecard.
  ghost predicate Finished(rows: Rows, sessions: seq<Session>, rest: Rows, ratio: real) {
    && NoRepeats(Ids(sessions))
    && (forall k :: k in Ids(sessions) <==> k in rows && k !in rest)
    && forall s :: s in sessions ==> IsRow(rows, s, ratio)
  }

  predicate IsRow(rows: Rows, s: Session, ratio: real) {
    && s.row.sessionID in rows && s.row == rows[s.row.sessionID]
    && Good(s.row.sums) && s.card == CardOf(s.row.sums, ratio)
  }

  lemma FinishedStep(rows: Rows, sessions: seq<Session>, rest: Rows, ratio: real, k: string, s: Session)
    requires Finished(rows, sessions, rest, ratio) && GoodRows(rows)
    requires k in rest && k in rows && s.row == rows[k] && s.card == CardOf(s.row.sums, ratio)
    ensures Finished(rows, sessions + [s], rest - {k}, ratio)
  {
    assert IsRow(rows, s, ratio);
    hide Good, CardOf, IsRow;
    assert Ids(sessions + [s]) == Ids(sessions) + [k];
    assert k !in Ids(sessions);
  }

  // Every row gets its scorecard, in whatever order the map is ranged.
  method FinishSessions(rows: Rows, direct: Sums, ratio: real) returns (sessions: seq<Session>, t: Totals)
    requires GoodRows(rows)
    ensures Split(rows, sessions, map[])
    ensures TotalsOf(direct, sessions, t)
    ensures Finished(rows, sessions, map[], ratio)
  {
    hide Amount, Good, CardOf, Direct, IsRow;
    sessions := [];
    t := Totals(direct, 0, 0, 0);
    var rest := rows;
    assert Ids([]) == [];
    while rest != map[]
      invariant forall k :: k in rest ==> k in rows && rest[k] == rows[k]
      invariant Split(rows, sessions, rest)
      invariant TotalsOf(direct, sessions, t)
      invariant Finished(rows, sessions, rest, ratio)
      decreases |rest|
    {
      var k :| k in rest;
      var s := Session(rest[k], CardOf(rest[k].sums, ratio));
      SplitStep(rows, sessions, rest, k, s);
      FinishedStep(rows, sessions, rest, ratio, k, s);
      t := AddSession(direct, sessions, t, s);
      sessions := sessions + [s];
      rest := rest - {k};
    }
  }

  // ---- net amounts ----

  // What a row nets out, read through its fields.
  predicate RowNets(r: SessionRow) {
    By(NetSaved)(r) == By(LocalSaved)(r) - By(NegativeEventTokens)(r)
    && By(CacheNet)(r) == By(CacheRead)(r) - By(CacheCreate)(r)
  }

  predicate RowsNet(rows: Rows) {
    forall k :: k in rows ==> RowNets(rows[k])
  }

  lemma RecordShare(rs: seq<Record>, c: Context, i: nat, f: Field)
    requires i < |rs| && Direct(f)
    ensures Amounts(rs, c, f)[i] == DirectShare(rs[i], f)
  {
    hide RecordAmount, Remaining, DirectShare;
    DirectShareIsRecordAmount(rs[i], Remaining(rs, i, c), c.ratio, f);
  }

  lemma RecordNets(rs: seq<Record>, c: Context, i: nat)
    requires i < |rs|
    ensures Amounts(rs, c, NetSaved)[i] == Amounts(rs, c, LocalSaved)[i] - Amounts(rs, c, NegativeEventTokens)[i]
    ensures Amounts(rs, c, CacheNet)[i] == Amounts(rs, c, CacheRead)[i] - Amounts(rs, c, CacheCreate)[i]
    ensures Amounts(rs, c, Requests)[i] == 1
  {
    hide *;
    AmountsLength(rs, c);
    ShareNets(rs[i]);
    RecordShare(rs, c, i, NetSaved);
    RecordShare(rs, c, i, LocalSaved);
    RecordShare(rs, c, i, NegativeEventTokens);
    RecordShare(rs, c, i, CacheNet);
    RecordShare(rs, c, i, CacheRead);
    RecordShare(rs, c, i, CacheCreate);
    RecordShare(rs, c, i, Requests);
  }

  lemma ShareNets(r: Record)
    ensures DirectShare(r, NetSaved) == DirectShare(r, LocalSaved) - DirectShare(r, NegativeEventTokens)
    ensures DirectShare(r, CacheNet) == DirectShare(r, CacheRead) - DirectShare(r, CacheCreate)
    ensures DirectShare(r, Requests) == 1
    ensures Direct(NetSaved) && Direct(LocalSaved) && Direct(NegativeEventTokens) && Direct(CacheNet)
    ensures Direct(CacheRead) && Direct(CacheCreate) && Direct(Requests)
  {
  }

  lemma LoggedRowsNet(rs: seq<Record>, c: Context, rows: Rows)
    requires RowsAt(rs, |rs|, c, rows)
    ensures RowsNet(rows)
  {
    hide RecordAmount, Remaining, Amounts, GoodRows, Tallied, KeyedBy;
    AllRecordsNet(rs, c);
    var keys := SessionKeys(rs);
    SumDifference(keys, Amounts(rs, c, NetSaved), Amounts(rs, c, LocalSaved), Amounts(rs, c, NegativeEventTokens),
                  |rs|);
    SumDifference(keys, Amounts(rs, c, CacheNet), Amounts(rs, c, CacheRead), Amounts(rs, c, CacheCreate), |rs|);
    forall k | k in rows
      ensures RowNets(rows[k])
    {
      RowTallied(rs, c, rows, k, NetSaved);
      RowTallied(rs, c, rows, k, LocalSaved);
      RowTallied(rs, c, rows, k, NegativeEventTokens);
      RowTallied(rs, c, rows, k, CacheNet);
      RowTallied(rs, c, rows, k, CacheRead);
      RowTallied(rs, c, rows, k, CacheCreate);
      hide RowsAt, By;
    }
  }

  lemma RowTallied(rs: seq<Record>, c: Context, rows: Rows, k: string, f: Field)
    requires RowsAt(rs, |rs|, c, rows) && k in rows
    ensures By(f)(rows[k]) == SumFor(SessionKeys(rs), Amounts(rs, c, f), |rs|, k)
  {
    hide RecordAmount, Remaining, GoodRows;
    assert Tallied(SessionKeys(rs), Amounts(rs, c, f), |rs|, rows, By(f));
  }

  lemma AllRecordsNet(rs: seq<Record>, c: Context)
    ensures forall f :: |Amounts(rs, c, f)| == |rs|
    ensures forall i :: 0 <= i < |rs| ==>
      Amounts(rs, c, NetSaved)[i] == Amounts(rs, c, LocalSaved)[i] - Amounts(rs, c, NegativeEventTokens)[i]
    ensures forall i :: 0 <= i < |rs| ==>
      Amounts(rs, c, CacheNet)[i] == Amounts(rs, c, CacheRead)[i] - Amounts(rs, c, CacheCreate)[i]
    ensures forall i :: 0 <= i < |rs| ==> Amounts(rs, c, Requests)[i] == 1
  {
    forall i: nat | i < |rs|
      ensures Amounts(rs, c, NetSaved)[i] == Amounts(rs, c, LocalSaved)[i] - Amounts(rs, c, NegativeEventTokens)[i]
      ensures Amounts(rs, c, CacheNet)[i] == Amounts(rs, c, CacheRead)[i] - Amounts(rs, c, CacheCreate)[i]
      ensures Amounts(rs, c, Requests)[i] == 1
    {
      RecordNets(rs, c, i);
    }
    hide RecordAmount, Remaining;
  }

  // Moving sessions onto threads keeps every row netting out.
  lemma MovedRowsNet(p: Plan<SessionRow>, moved: set<string>, rows: Rows, facts: FactTable)
    requires Progress(p, moved, rows, facts) && RowsNet(p.rows)
    ensures RowsNet(rows)
  {
    forall k | k in rows
      ensures RowNets(rows[k])
    {
      var landing := Landing(p, moved, k);
      TotalDifference(landing, By(NetSaved), By(LocalSaved), By(NegativeEventTokens));
      TotalDifference(landing, By(CacheNet), By(CacheRead), By(CacheCreate));
      assert RowsSummed(p, moved, rows, By(NetSaved)) && RowsSummed(p, moved, rows, By(LocalSaved))
        && RowsSummed(p, moved, rows, By(NegativeEventTokens)) && RowsSummed(p, moved, rows, By(CacheNet))
        && RowsSummed(p, moved, rows, By(CacheRead)) && RowsSummed(p, moved, rows, By(CacheCreate));
    }
  }

  // ---- from the log to the routes ----

  // The totals agree with the rows on what the log loop adds to both, and are still
  // zero elsewhere.
  ghost predicate Balanced(totals: Sums, rows: Rows) {
    forall f :: Amount(totals, f) == if Direct(f) then Total(rows, By(f)) else 0
  }

  // Every field sums what the records in the window contribute and what their sessions
  // are charged for.
  ghost predicate FromLog(rs: seq<Record>, c: Context, rows: Rows) {
    forall f :: Total(rows, By(f)) == LoggedTotal(rs, c, f)
  }

  ghost function LoggedTotal(rs: seq<Record>, c: Context, f: Field): int {
    SumTo(Amounts(rs, c, f), |rs|) + Total(SessionLog(rs), ByCharge(f))
  }

  // The same before any charge.
  ghost predicate Uncharged(rs: seq<Record>, c: Context, rows: Rows) {
    rows.Keys == SessionLog(rs).Keys && forall f :: Total(rows, By(f)) == SumTo(Amounts(rs, c, f), |rs|)
  }

  // A row for each session of the log, every field of it what the records of the session
  // contribute and what they are charged for.
  ghost predicate SessionsLogged(rs: seq<Record>, c: Context, rows: Rows) {
    rows.Keys == SessionLog(rs).Keys && forall k, f :: k in rows ==> By(f)(rows[k]) == LoggedFor(rs, c, k, f)
  }

  ghost function LoggedFor(rs: seq<Record>, c: Context, k: string, f: Field): int {
    SumFor(SessionKeys(rs), Amounts(rs, c, f), |rs|, k) + Charged(SessionLog(rs), k, f)
  }

  lemma LoggedRows(rs: seq<Record>, c: Context, before: Rows, after: Rows)
    requires RowsAt(rs, |rs|, c, before) && ChargedRows(before, after, SessionLog(rs), {})
    requires before.Keys == SessionLog(rs).Keys
    ensures SessionsLogged(rs, c, after)
  {
    hide RowsAt, SessionLog, By, Charged, GoodRows;
    forall k, f | k in after
      ensures By(f)(after[k]) == LoggedFor(rs, c, k, f)
    {
      RowTallied(rs, c, before, k, f);
    }
  }

  lemma AfterLog(rs: seq<Record>, c: Context, totals: Sums, rows: Rows)
    requires TotalsAt(rs, |rs|, c, totals) && RowsAt(rs, |rs|, c, rows)
    ensures GoodRows(rows) && Balanced(totals, rows) && Uncharged(rs, c, rows) && RowsNet(rows)
    ensures BillableLog(rs) ==> Billable(rows)
  {
    hide RowsNet, Billable, BillableLog, Uncharged, Balanced, TotalsAt, RowsAt, GoodRows;
    LoggedRowsNet(rs, c, rows);
    RowsTotal(rs, c, rows);
    TotalsBalanced(rs, c, totals, rows);
    if BillableLog(rs) {
      LoggedRowsBillable(rs, c, rows);
    }
  }

  lemma RowsTotal(rs: seq<Record>, c: Context, rows: Rows)
    requires RowsAt(rs, |rs|, c, rows)
    ensures GoodRows(rows) && Uncharged(rs, c, rows)
  {
    hide Amounts, GoodRows, By, RecordsOf;
    AmountsLength(rs, c);
    KeysLength(rs);
    assert SessionKeys(rs)[..|rs|] == SessionKeys(rs);
    forall f
      ensures Total(rows, By(f)) == SumTo(Amounts(rs, c, f), |rs|)
    {
      assert Tallied(SessionKeys(rs), Amounts(rs, c, f), |rs|, rows, By(f));
    }
  }

  lemma TotalsBalanced(rs: seq<Record>, c: Context, totals: Sums, rows: Rows)
    requires TotalsAt(rs, |rs|, c, totals) && Uncharged(rs, c, rows)
    ensures Balanced(totals, rows)
  {
    hide Amounts, By, Amount, Direct, SessionLog;
    AmountsLength(rs, c);
  }

  lemma AmountsLength(rs: seq<Record>, c: Context)
    ensures forall f :: |Amounts(rs, c, f)| == |rs|
  {
  }

  // No record counts negative input or reads.
  predicate BillableLog(rs: seq<Record>) {
    forall r :: r in rs ==> r.providerInput >= 0 && r.final >= 0 && Read(r) >= 0
  }

  // What the two conditions of the report say of its records and its rows.
  lemma ConditionsMean(rs: seq<Record>, s: Sums)
    ensures BillableLog(rs) <==>
      forall i :: 0 <= i < |rs| ==>
        rs[i].providerInput > -1 && rs[i].final > -1 && rs[i].cacheRead > -1 - rs[i].providerCached
    ensures NetsOut(s) <==>
      s.netSaved + s.negativeEventTokens == s.localSaved && s.cacheNet + s.cacheCreate == s.cacheRead
  {
    assert forall r :: r in rs ==> exists i :: 0 <= i < |rs| && rs[i] == r;
  }

  lemma LoggedRowsBillable(rs: seq<Record>, c: Context, rows: Rows)
    requires RowsAt(rs, |rs|, c, rows) && BillableLog(rs)
    ensures Billable(rows)
  {
    hide RecordAmount, Remaining, Amounts, RowsAt;
    forall k | k in rows
      ensures Counts0(BillOf(rows[k].sums))
    {
      BillableField(rs, c, rows, k, ProviderInput);
      BillableField(rs, c, rows, k, Final);
      BillableField(rs, c, rows, k, CacheRead);
      assert By(ProviderInput)(rows[k]) == rows[k].sums.providerInput && By(Final)(rows[k]) == rows[k].sums.final;
      assert By(CacheRead)(rows[k]) == rows[k].sums.cacheRead;
    }
  }

  lemma BillableField(rs: seq<Record>, c: Context, rows: Rows, k: string, f: Field)
    requires RowsAt(rs, |rs|, c, rows) && BillableLog(rs) && k in rows
    requires f.ProviderInput? || f.Final? || f.CacheRead?
    ensures By(f)(rows[k]) >= 0
  {
    hide RowsAt, Amounts, By, SessionKeys, BillableLog;
    RowTallied(rs, c, rows, k, f);
    AmountsNonNegative(rs, c, f);
    AmountsLength(rs, c);
    KeysLength(rs);
    SumForNonNegative(SessionKeys(rs), Amounts(rs, c, f), |rs|, k);
  }

  lemma KeysLength(rs: seq<Record>)
    ensures |SessionKeys(rs)| == |rs|
  {
  }

  lemma AmountsNonNegative(rs: seq<Record>, c: Context, f: Field)
    requires BillableLog(rs) && (f.ProviderInput? || f.Final? || f.CacheRead?)
    ensures forall i :: 0 <= i < |Amounts(rs, c, f)| ==> Amounts(rs, c, f)[i] >= 0
  {
    hide RecordAmount, Remaining;
    forall i | 0 <= i < |rs|
      ensures Amounts(rs, c, f)[i] >= 0
    {
      DirectShareIsRecordAmount(rs[i], Remaining(rs, i, c), c.ratio, f);
      assert rs[i] in rs;
    }
  }

  lemma AfterCharges(rs: seq<Record>, c: Context, before: Rows, after: Rows)
    requires ChargedRows(before, after, SessionLog(rs), {}) && Uncharged(rs, c, before) && RowsNet(before)
    ensures FromLog(rs, c, after) && RowsNet(after)
    ensures Billable(before) ==> Billable(after)
  {
    hide SessionLog, Amounts, GoodRows;
    forall f
      ensures Total(after, By(f)) == Total(before, By(f)) + Total(SessionLog(rs), ByCharge(f))
    {
      ChargesAdd(before, after, SessionLog(rs), f);
    }
    forall k | k in after
      ensures RowNets(after[k]) && (Counts0(BillOf(before[k].sums)) ==> Counts0(BillOf(after[k].sums)))
    {
      ChargesNet(before, after, SessionLog(rs), k);
      ChargesKeepCounts(before, after, SessionLog(rs), k);
    }
    hide RowNets, By, ByCharge, Charged, BillOf, ChargedRows;
  }

  lemma ChargesAdd(before: Rows, after: Rows, records: map<string, seq<Record>>, f: Field)
    requires ChargedRows(before, after, records, {}) && before.Keys == records.Keys
    ensures Total(after, By(f)) == Total(before, By(f)) + Total(records, ByCharge(f))
  {
    hide GoodRows, ChargeOf, Amount;
    forall k | k in after
      ensures By(f)(after[k]) == By(f)(before[k]) + ByCharge(f)(records[k])
    {
      assert Charged(records, k, f) == ChargeOf(records[k], f);
    }
    TotalPlus(after, before, records, By(f), ByCharge(f));
  }

  lemma ChargesKeepCounts(before: Rows, after: Rows, records: map<string, seq<Record>>, k: string)
    requires ChargedRows(before, after, records, {}) && k in after
    ensures Counts0(BillOf(before[k].sums)) ==> Counts0(BillOf(after[k].sums))
  {
    assert Charged(records, k, ProviderInput) == Charged(records, k, Final) == Charged(records, k, CacheRead) == 0;
    hide Charged, GoodRows;
    assert By(ProviderInput)(after[k]) == after[k].sums.providerInput && By(Final)(after[k]) == after[k].sums.final;
    assert By(CacheRead)(after[k]) == after[k].sums.cacheRead;
    assert By(ProviderInput)(before[k]) == before[k].sums.providerInput && By(Final)(before[k]) == before[k].sums.final;
    assert By(CacheRead)(before[k]) == before[k].sums.cacheRead;
  }

  lemma ChargesKeepBalance(t: Sums, rows: Rows, t': Sums, rows': Rows)
    requires Balanced(t, rows) && MovedTogether(t, rows, t', rows')
    ensures Balanced(t', rows')
  {
    hide Amount;
  }

  lemma ChargesNet(before: Rows, after: Rows, records: map<string, seq<Record>>, k: string)
    requires ChargedRows(before, after, records, {}) && k in after && RowNets(before[k])
    ensures RowNets(after[k])
  {
    assert Charged(records, k, NetSaved) == -Charged(records, k, NegativeEventTokens);
    assert Charged(records, k, LocalSaved) == Charged(records, k, CacheNet) == Charged(records, k, CacheRead)
      == Charged(records, k, CacheCreate) == 0;
    hide Charged, Amount;
  }

  lemma StillBalanced(p: Plan<SessionRow>, moved: set<string>, rows: Rows, facts: FactTable, direct: Sums)
    requires Progress(p, moved, rows, facts) && Balanced(direct, p.rows)
    ensures Balanced(direct, rows) && GoodRows(rows)
    ensures forall f :: Total(rows, By(f)) == Total(p.rows, By(f))
  {
    hide Amount, Direct, RowsKept, RowsSummed, FactsAfter, BilledAtMost, Good;
  }

  // Totals, sessions and routes tell the same story, field by field.
  ghost predicate Reconciled(t: Totals, sessions: seq<Session>, routes: Routes) {
    (forall f :: Amount(t.sums, f) == SumTo(Shares(sessions, Sum(f)), |sessions|))
    && (forall x | Routed(x) :: Total(routes, OfRoute(x)) == SumTo(Shares(sessions, x), |sessions|))
    && t.effective == SumTo(Shares(sessions, Effective), |sessions|)
    && t.counterfactual == SumTo(Shares(sessions, Counterfactual), |sessions|)
    && t.uncached == SumTo(Shares(sessions, Uncached), |sessions|)
  }

  lemma Reconcile(rows: Rows, direct: Sums, sessions: seq<Session>, t: Totals, routes: Routes)
    requires Balanced(direct, rows) && Split(rows, sessions, map[]) && TotalsOf(direct, sessions, t)
    requires RoutesAt(sessions, |sessions|, routes)
    ensures Reconciled(t, sessions, routes)
    ensures forall f :: Amount(t.sums, f) == Total(rows, By(f))
  {
    hide Amount, Direct, Good, ShareOf;
    var none: Rows := map[];
    assert forall f :: Total(none, By(f)) == 0;
  }

  lemma SharesNet(t: Totals, sessions: seq<Session>, routes: Routes)
    requires Reconciled(t, sessions, routes) && RoutesAt(sessions, |sessions|, routes)
    requires forall s :: s in sessions ==> RowNets(s.row)
    ensures NetsOut(t.sums)
    ensures forall k :: k in routes ==> NetsOut(routes[k].sums)
  {
    var keys := RouteKeys(sessions);
    SumDifference(keys, Shares(sessions, Sum(NetSaved)), Shares(sessions, Sum(LocalSaved)),
                  Shares(sessions, Sum(NegativeEventTokens)), |sessions|);
    SumDifference(keys, Shares(sessions, Sum(CacheNet)), Shares(sessions, Sum(CacheRead)),
                  Shares(sessions, Sum(CacheCreate)), |sessions|);
    TotalsNet(t, sessions);
    forall k | k in routes
      ensures NetsOut(routes[k].sums)
    {
      assert RouteSum(sessions, k, NetSaved) == SumFor(keys, Shares(sessions, Sum(NetSaved)), |sessions|, k);
      RouteNets(sessions, routes, k);
    }
  }

  lemma TotalsNet(t: Totals, sessions: seq<Session>)
    requires forall f :: Amount(t.sums, f) == ShareSum(sessions, Sum(f))
    requires ShareSum(sessions, Sum(NetSaved)) ==
      ShareSum(sessions, Sum(LocalSaved)) - ShareSum(sessions, Sum(NegativeEventTokens))
    requires ShareSum(sessions, Sum(CacheNet)) ==
      ShareSum(sessions, Sum(CacheRead)) - ShareSum(sessions, Sum(CacheCreate))
    ensures NetsOut(t.sums)
  {
    hide ShareSum;
    assert Amount(t.sums, NetSaved) == t.sums.netSaved;
    assert Amount(t.sums, LocalSaved) == t.sums.localSaved;
    assert Amount(t.sums, NegativeEventTokens) == t.sums.negativeEventTokens;
    assert Amount(t.sums, CacheNet) == t.sums.cacheNet;
    assert Amount(t.sums, CacheRead) == t.sums.cacheRead;
    assert Amount(t.sums, CacheCreate) == t.sums.cacheCreate;
  }

  lemma RouteNets(sessions: seq<Session>, routes: Routes, k: string)
    requires RoutesAt(sessions, |sessions|, routes) && k in routes
    requires RouteSum(sessions, k, NetSaved) ==
      RouteSum(sessions, k, LocalSaved) - RouteSum(sessions, k, NegativeEventTokens)
    requires RouteSum(sessions, k, CacheNet) ==
      RouteSum(sessions, k, CacheRead) - RouteSum(sessions, k, CacheCreate)
    ensures NetsOut(routes[k].sums)
  {
    hide RoutesAt, RouteSum;
    RouteAmount(sessions, routes, k, NetSaved);
    RouteAmount(sessions, routes, k, LocalSaved);
    RouteAmount(sessions, routes, k, NegativeEventTokens);
    RouteAmount(sessions, routes, k, CacheNet);
    RouteAmount(sessions, routes, k, CacheRead);
    RouteAmount(sessions, routes, k, CacheCreate);
  }

  function RouteSum(sessions: seq<Session>, k: string, f: Field): int {
    SumFor(RouteKeys(sessions), Shares(sessions, Sum(f)), |sessions|, k)
  }

  lemma RouteAmount(sessions: seq<Session>, routes: Routes, k: string, f: Field)
    requires RoutesAt(sessions, |sessions|, routes) && k in routes && !f.Added?
    ensures Amount(routes[k].sums, f) == RouteSum(sessions, k, f)
  {
    hide RouteKey, ShareOf, Good;
    assert Tallied(RouteKeys(sessions), Shares(sessions, Sum(f)), |sessions|, routes, OfRoute(Sum(f)));
  }

  // The log folded into tables, with the negative events charged.
  method ChargedTables(rs: seq<Record>, c: Context) returns (rows: Rows, facts: FactTable, direct: Sums)
    ensures GoodRows(rows) && Filed(facts)
    ensures Balanced(direct, rows) && FromLog(rs, c, rows) && RowsNet(rows)
    ensures SessionsLogged(rs, c, rows) && FactsAt(rs, |rs|, facts)
    ensures BillableLog(rs) ==> Billable(rows)
  {
    hide TotalsAt, Balanced, FromLog, Uncharged, RowsNet, Tallied, KeyedBy, SessionLog, MovedTogether, ChargedRows;
    hide BillableLog, Billable, RowsAt, SessionsLogged, GoodRows;
    var ledger := new Ledger();
    var records := ledger.Accumulate(rs, c);
    AfterLog(rs, c, ledger.totals, ledger.bySession);
    ghost var before, totals := ledger.bySession, ledger.totals;
    ledger.ApplyNegativeEvents(records);
    AfterCharges(rs, c, before, ledger.bySession);
    LoggedRows(rs, c, before, ledger.bySession) by { KeysLogged(rs, c, before); }
    ChargesKeepBalance(totals, before, ledger.totals, ledger.bySession);
    assert GoodRows(ledger.bySession) by { ChargedAreGood(before, ledger.bySession, records); }
    return ledger.bySession, ledger.byFacts, ledger.totals;
  }

  lemma KeysLogged(rs: seq<Record>, c: Context, rows: Rows)
    requires Uncharged(rs, c, rows)
    ensures rows.Keys == SessionLog(rs).Keys
  {
  }

  lemma ChargedAreGood(before: Rows, after: Rows, records: map<string, seq<Record>>)
    requires ChargedRows(before, after, records, {})
    ensures GoodRows(after)
  {
  }

  // ---- billing of the totals ----

  function Bills(sessions: seq<Session>): seq<Bill> {
    seq(|sessions|, i requires 0 <= i < |sessions| => BillOf(sessions[i].row.sums))
  }

  // The bill of what the sessions add up to.
  function PooledBill(sessions: seq<Session>): Bill {
    Bill(ShareSum(sessions, Sum(ProviderInput)), ShareSum(sessions, Sum(Final)), ShareSum(sessions, Sum(CacheRead)),
         ShareSum(sessions, Sum(CacheCreate)), ShareSum(sessions, Sum(NegativeEventTokens)))
  }

  lemma PoolOneMore(sessions: seq<Session>, s: Session)
    ensures PooledBill(sessions + [s]) == Pool(PooledBill(sessions), BillOf(s.row.sums))
    ensures ShareSum(sessions + [s], Effective) == ShareSum(sessions, Effective) + s.card.effective
  {
    hide Shares, SumTo;
    Appended(sessions, s, Effective);
    Appended(sessions, s, Sum(ProviderInput));
    Appended(sessions, s, Sum(Final));
    Appended(sessions, s, Sum(CacheRead));
    Appended(sessions, s, Sum(CacheCreate));
    Appended(sessions, s, Sum(NegativeEventTokens));
  }

  lemma EffectiveIsBilled(s: Sums, ratio: real)
    ensures CardOf(s, ratio).effective == Billed(BillOf(s), ratio)
  {
  }

  lemma {:induction false} BillsAddUp(sessions: seq<Session>, ratio: real)
    requires forall i :: 0 <= i < |sessions| ==> sessions[i].card == CardOf(sessions[i].row.sums, ratio)
    ensures SumBilled(Bills(sessions), ratio) == ShareSum(sessions, Effective)
    ensures PoolAll(Bills(sessions)) == PooledBill(sessions)
  {
    hide Billed, BillOf, CardOf, Pool;
    if sessions == [] {
      assert PooledBill([]) == Bill(0, 0, 0, 0, 0) && ShareSum([], Effective) == 0;
    } else {
      hide PooledBill, ShareSum;
      var n := |sessions| - 1;
      BillsAddUp(sessions[..n], ratio);
      assert sessions[..n] + [sessions[n]] == sessions;
      assert Bills(sessions)[..n] == Bills(sessions[..n]);
      PoolOneMore(sessions[..n], sessions[n]);
      EffectiveIsBilled(sessions[n].row.sums, ratio);
    }
  }

  // The reported total of billed tokens is never below the bill of the grand totals.
  lemma ReportedTotalCoversPool(t: Totals, sessions: seq<Session>, routes: Routes, ratio: real)
    requires Reconciled(t, sessions, routes)
    requires forall i :: 0 <= i < |sessions| ==>
      sessions[i].card == CardOf(sessions[i].row.sums, ratio) && Counts0(BillOf(sessions[i].row.sums))
    ensures Billed(BillOf(t.sums), ratio) <= t.effective
  {
    hide Billed, CardOf, Shares, SumTo;
    BillsAddUp(sessions, ratio);
    SumCoversPool(Bills(sessions), ratio);
    assert Amount(t.sums, ProviderInput) == t.sums.providerInput && Amount(t.sums, Final) == t.sums.final;
    assert Amount(t.sums, CacheRead) == t.sums.cacheRead && Amount(t.sums, CacheCreate) == t.sums.cacheCreate;
    assert Amount(t.sums, NegativeEventTokens) == t.sums.negativeEventTokens;
  }

  // The sessions reported are, one for one, the rows that the plan leaves: those logged,
  // with the sessions that need a thread moved to theirs.
  ghost predicate Planned(rs: seq<Record>, c: Context, lookup: Lookup, resolve: Resolver, p: Plan<SessionRow>,
                          rows: Rows, facts: FactTable, sessions: seq<Session>) {
    && SessionsLogged(rs, c, p.rows) && FactsAt(rs, |rs|, p.facts)
    && p == PlanOf(p.rows, p.facts, lookup, resolve)
    && Progress(p, p.target.Keys, rows, facts)
    && Finished(rows, sessions, map[], c.ratio)
  }

  // The Codex requests counted from the facts: never more than the candidates logged, and
  // all of them exactly if no two moved sessions share a thread or land on Codex requests;
  // each is attributed or has a reason.
  ghost predicate CodexCounted(rs: seq<Record>, p: Plan<SessionRow>, facts: FactTable, r: CodexCounts) {
    && r.requests <= SumTo(CandidateFlags(rs), |rs|)
    && (r.requests == SumTo(CandidateFlags(rs), |rs|) <==> FreshThreads(p.facts, p.target))
    && r.attributed == Total(facts, Attributed()) && r.attributed + r.unattributed == r.requests
    && (forall reason :: CountIn(r.reasons, reason) == Total(facts, MissingFor(reason)))
    && Total(r.reasons, Count()) == r.unattributed >= 0
  }

  lemma CodexIsCounted(rs: seq<Record>, p: Plan<SessionRow>, rows: Rows, facts: FactTable, r: CodexCounts)
    requires FactsAt(rs, |rs|, p.facts) && Progress(p, p.target.Keys, rows, facts)
    requires r.requests == Total(facts, Candidates()) && r.attributed == Min(Total(facts, Attributed()), r.requests)
    requires r.unattributed == r.requests - r.attributed
    requires forall reason :: CountIn(r.reasons, reason) == Total(facts, MissingFor(reason))
    requires Total(r.reasons, Count()) == Total(facts, ByMissing())
    ensures CodexCounted(rs, p, facts, r)
  {
    hide RowsKept, RowsSummed, GoodRows, Conserved, BilledAtMost, KeyedBy, CandidateFlags, FreshThreads, Filed;
    hide Attributes, TargetsFresh, FactsKept, CountIn, MissingFor;
    FlagsLength(rs);
    CodexRequestsConservedIff(p, rows, facts);
    StillAttributes(p, p.target.Keys, facts);
    ReasonsAccount(facts);
  }

  // Whatever order the maps are ranged in: the grand totals, the sum of the session
  // rows and the sum of the route rows agree on every field; the session rows are those
  // of the plan; each total is the sum over the records in the window plus what their
  // sessions are charged for; everything nets out; what is reported as billed covers the
  // bill of the totals; and the Codex requests are accounted for.
  method Report(log: seq<Record>, c: Context, lookup: Lookup, resolve: Resolver)
    returns (t: Totals, sessions: seq<Session>, routes: Routes, codex: CodexCounts,
             ghost p: Plan<SessionRow>, ghost rows: Rows, ghost facts: FactTable)
    ensures Planned(Window(log, c), c, lookup, resolve, p, rows, facts, sessions)
    ensures CodexCounted(Window(log, c), p, facts, codex)
    ensures Reconciled(t, sessions, routes)
    ensures forall f :: Amount(t.sums, f) == LoggedTotal(Window(log, c), c, f)
    ensures Amount(t.sums, Requests) == |Window(log, c)|
    ensures NetsOut(t.sums)
    ensures forall s :: s in sessions ==> RowNets(s.row) && s.card == CardOf(s.row.sums, c.ratio)
    ensures forall k :: k in routes ==> NetsOut(routes[k].sums)
    ensures BillableLog(Window(log, c)) ==> Billed(BillOf(t.sums), c.ratio) <= t.effective
  {
    hide Amount, Direct, RecordAmount, Remaining, Good, Progress, PlanOf, CardOf, Reconciled, SessionLog, ByCharge;
    hide Billed, BillOf, Balanced, RowNets, NetsOut, BillableLog, Window, Amounts, By, LoggedTotal, RoutesAt, Split;
    hide TotalsOf, GoodRows, Billable, Finished, RowsNet, FromLog, SessionsLogged, FactsAt, Filed, CodexCounted;
    hide FreshThreads, CountIn;
    var rs := FilterWindow(log, c);
    var table, noted, direct := ChargedTables(rs, c);
    var table', noted' := ResolveFallbackSessions(table, noted, lookup, resolve);
    p, rows, facts := PlanOf(table, noted, lookup, resolve), table', noted';
    PlanRows(table, noted, lookup, resolve);
    codex := CountCodex(noted');
    CodexIsCounted(rs, p, rows, facts, codex);
    MovedRowsNet(p, p.target.Keys, rows, facts);
    StillBalanced(p, p.target.Keys, rows, facts, direct);
    StillBillable(p, p.target.Keys, rows, facts);
    sessions, t := FinishSessions(table', direct, c.ratio);
    FinishedNet(rows, sessions, c.ratio);
    routes := BuildRoutes(sessions);
    Reconcile(rows, direct, sessions, t, routes);
    SharesNet(t, sessions, routes);
    RequestsCounted(rs, c);
    LoggedAmounts(rs, c, table, rows, t);
    if BillableLog(rs) {
      FinishedBillable(rows, sessions, c.ratio);
      ReportedTotalCoversPool(t, sessions, routes, c.ratio);
    }
  }

  lemma LoggedAmounts(rs: seq<Record>, c: Context, rows: Rows, moved: Rows, t: Totals)
    requires FromLog(rs, c, rows) && forall f :: Total(moved, By(f)) == Total(rows, By(f))
    requires forall f :: Amount(t.sums, f) == Total(moved, By(f))
    ensures forall f :: Amount(t.sums, f) == LoggedTotal(rs, c, f)
    ensures t.sums.requests == LoggedTotal(rs, c, Requests)
  {
    hide LoggedTotal, By;
    assert Amount(t.sums, Requests) == t.sums.requests;
    hide Amount;
  }

  lemma FinishedNet(rows: Rows, sessions: seq<Session>, ratio: real)
    requires Finished(rows, sessions, map[], ratio) && RowsNet(rows)
    ensures forall s :: s in sessions ==> RowNets(s.row) && s.card == CardOf(s.row.sums, ratio)
    ensures forall s :: s in sessions ==> Good(s.row.sums)
  {
    hide RowNets, CardOf, Good;
  }

  lemma FinishedBillable(rows: Rows, sessions: seq<Session>, ratio: real)
    requires Finished(rows, sessions, map[], ratio) && Billable(rows)
    ensures forall i :: 0 <= i < |sessions| ==>
      sessions[i].card == CardOf(sessions[i].row.sums, ratio) && Counts0(BillOf(sessions[i].row.sums))
  {
    hide CardOf, Good, Counts0, BillOf;
    forall i | 0 <= i < |sessions|
      ensures IsRow(rows, sessions[i], ratio)
    {
      assert sessions[i] in sessions;
    }
  }

  lemma PlanRows(rows: Rows, facts: FactTable, lookup: Lookup, resolve: Resolver)
    ensures var p := PlanOf(rows, facts, lookup, resolve); p.rows == rows && p.facts == facts
  {
  }

  lemma StillBillable(p: Plan<SessionRow>, moved: set<string>, rows: Rows, facts: FactTable)
    requires Progress(p, moved, rows, facts)
    ensures Billable(p.rows) ==> Billable(rows)
  {
    hide RowsKept, RowsSummed, FactsAfter, GoodRows, Conserved;
  }

  lemma RequestsCounted(rs: seq<Record>, c: Context)
    ensures LoggedTotal(rs, c, Requests) == |rs|
  {
    AllRecordsNet(rs, c);
    SumOnes(Amounts(rs, c, Requests), |rs|);
    TotalZero(SessionLog(rs), ByCharge(Requests));
    hide Amounts, SessionLog;
  }
}
