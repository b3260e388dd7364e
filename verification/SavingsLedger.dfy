// The savings ledger: grand totals, session rows and attribution facts, filled
// from the decision log (cmd/slimference/savings_cmd.go:356-593, 1055-1178).
module SavingsLedger {
  import opened Strs
  import opened MapSums
  import opened SavingsSums
  import opened SavingsRecords
  import opened SavingsRows
  import opened SavingsMoves
  import opened SavingsFallback
  import opened SavingsAttribution
  import Negative = SavingsNegative

  // The reporting window and what the compounded estimate needs. `live` stands for
  // the session-length estimator, which is consulted only for the live period.
  datatype Context = Context(start: int, end: int, period: string, ratio: real, live: (Record, int) -> int)

  predicate InWindow(r: Record, c: Context) {
    r.timestamp.Some? && c.start <= r.timestamp.value <= c.end
  }

  function Window(log: seq<Record>, c: Context): (rs: seq<Record>)
    ensures forall r :: r in rs <==> r in log && InWindow(r, c)
  {
    if log == [] then []
    else
      var r := log[|log| - 1];
      Window(log[..|log| - 1], c) + if InWindow(r, c) then [r] else []
  }

  method FilterWindow(log: seq<Record>, c: Context) returns (rs: seq<Record>)
    ensures rs == Window(log, c)
  {
    rs := [];
    for i := 0 to |log|
      invariant rs == Window(log[..i], c)
    {
      assert log[..i + 1][..i] == log[..i];
      if log[i].timestamp.None? || log[i].timestamp.value < c.start || log[i].timestamp.value > c.end {
        continue;
      }
      rs := rs + [log[i]];
    }
    assert log[..|log|] == log;
  }

  function SessionKeys(rs: seq<Record>): seq<string> {
    seq(|rs|, i requires 0 <= i < |rs| => DecisionSessionID(rs[i]))
  }

  function RemainingRequests(observed: int, seen: int, r: Record, c: Context): int {
    if observed > 0 then observed
    else if c.period != "live" then 1
    else c.live(r, seen)
  }

  // Where none was observed, one is assumed, or the estimate for a live period.
  lemma RemainingMeans(observed: int, seen: int, r: Record, c: Context)
    ensures observed >= 1 ==> RemainingRequests(observed, seen, r, c) == observed
    ensures observed < 1 && c.period == "live" ==> RemainingRequests(observed, seen, r, c) == c.live(r, seen)
    ensures observed < 1 && c.period != "live" ==> RemainingRequests(observed, seen, r, c) == 1
  {
  }

  // Requests of the same session still to come after record i.
  function Remaining(rs: seq<Record>, i: nat, c: Context): int
    requires i < |rs|
  {
    var keys := SessionKeys(rs);
    var seen := CountFor(keys, i + 1, keys[i]);
    RemainingRequests(CountFor(keys, |rs|, keys[i]) - seen, seen, rs[i], c)
  }

  // What each record adds to field f of its session's row.
  function Amounts(rs: seq<Record>, c: Context, f: Field): seq<int> {
    seq(|rs|, i requires 0 <= i < |rs| => RecordAmount(rs[i], Remaining(rs, i, c), c.ratio, f))
  }

  function CandidateFlags(rs: seq<Record>): seq<int> {
    seq(|rs|, i requires 0 <= i < |rs| => if IsCodexCandidate(rs[i], DecisionSessionID(rs[i])) then 1 else 0)
  }

  function RecordsOf(rs: seq<Record>, n: nat, id: string): seq<Record>
    requires n <= |rs|
  {
    if n == 0 then []
    else RecordsOf(rs, n - 1, id) + if DecisionSessionID(rs[n - 1]) == id then [rs[n - 1]] else []
  }

  // Fields the log loop adds to the grand totals itself; the others are summed
  // from the finished rows.
  predicate Direct(f: Field) {
    !(f.InLayer? || f.OutputReduce? || f.ToolPrune? || f.FootprintScore? || f.Bucket? || f.Compounded?)
  }

  function AddedSum(ms: seq<Mechanism>): int {
    if ms == [] then 0
    else AddedSum(ms[..|ms| - 1]) + if Counted(ms[|ms| - 1]) then ms[|ms| - 1].added else 0
  }

  // What a record adds to a grand total.
  function DirectShare(r: Record, f: Field): int {
    if f.Added? then AddedSum(r.mechanisms) else if Direct(f) then BaseAmount(r, f) else 0
  }

  lemma {:induction false} DirectMechanisms(ms: seq<Mechanism>, remaining: int, ratio: real, f: Field)
    requires Direct(f)
    ensures MechanismSum(ms, remaining, ratio, f) == if f.Added? then AddedSum(ms) else 0
  {
    if ms != [] {
      DirectMechanisms(ms[..|ms| - 1], remaining, ratio, f);
    }
  }

  // The grand totals take the same share of a record as its session row does.
  lemma DirectShareIsRecordAmount(r: Record, remaining: int, ratio: real, f: Field)
    requires Direct(f)
    ensures RecordAmount(r, remaining, ratio, f) == DirectShare(r, f)
  {
    hide MechanismSum, AddedSum;
    DirectMechanisms(r.mechanisms, remaining, ratio, f);
  }

  method AddedTokens(ms: seq<Mechanism>) returns (added: int)
    ensures added == AddedSum(ms)
  {
    added := 0;
    for i := 0 to |ms|
      invariant added == AddedSum(ms[..i])
    {
      assert ms[..i + 1][..i] == ms[..i];
      if Counted(ms[i]) {
        added := added + ms[i].added;
      }
    }
    assert ms[..|ms|] == ms;
  }

  method AddToTotals(t: Sums, r: Record) returns (next: Sums)
    ensures forall f :: Amount(next, f) == Amount(t, f) + DirectShare(r, f)
  {
    var base := AddBase(t, r);
    var added := AddedTokens(r.mechanisms);
    next := base.(added := t.added + added, outputReduce := t.outputReduce, toolPrune := t.toolPrune);
    assert Amount(base, Added) == base.added;
  }

  // ---- the ledger after the first n records ----

  ghost predicate TotalsAt(rs: seq<Record>, n: nat, c: Context, totals: Sums)
    requires n <= |rs|
  {
    forall f :: Amount(totals, f) == if Direct(f) then SumTo(Amounts(rs, c, f), n) else 0
  }

  // The records of each session seen, in order.
  ghost predicate RecordsAt(rs: seq<Record>, n: nat, records: map<string, seq<Record>>)
    requires n <= |rs|
  {
    KeyedBy(SessionKeys(rs), n, records)
    && forall id :: (if id in records then records[id] else []) == RecordsOf(rs, n, id)
  }

  lemma RecordsStep(rs: seq<Record>, n: nat, records: map<string, seq<Record>>)
    requires n < |rs| && RecordsAt(rs, n, records)
    ensures var id := SessionKeys(rs)[n];
      RecordsAt(rs, n + 1, records[id := (if id in records then records[id] else []) + [rs[n]]])
  {
    hide KeyedBy;
    var id := SessionKeys(rs)[n];
    KeyStep(SessionKeys(rs), n, records, (if id in records then records[id] else []) + [rs[n]]);
  }

  // The whole log by session.
  function SessionLog(rs: seq<Record>): map<string, seq<Record>> {
    map id | id in SessionKeys(rs) :: RecordsOf(rs, |rs|, id)
  }

  lemma RecordsAreLog(rs: seq<Record>, records: map<string, seq<Record>>)
    requires RecordsAt(rs, |rs|, records)
    ensures records == SessionLog(rs)
  {
    hide RecordsOf;
    assert SessionKeys(rs)[..|rs|] == SessionKeys(rs);
  }

  // A row for each session seen, each field of it the sum over the session's records,
  // and all rows together the sum over all records.
  ghost predicate RowsAt(rs: seq<Record>, n: nat, c: Context, rows: Rows)
    requires n <= |rs|
  {
    KeyedBy(SessionKeys(rs), n, rows) && GoodRows(rows)
    && (forall f :: Tallied(SessionKeys(rs), Amounts(rs, c, f), n, rows, By(f)))
  }

  ghost predicate FactsAt(rs: seq<Record>, n: nat, facts: FactTable)
    requires n <= |rs|
  {
    KeyedBy(SessionKeys(rs), n, facts) && Filed(facts) && Attributes(facts)
    && Tallied(SessionKeys(rs), CandidateFlags(rs), n, facts, Candidates())
  }

  function AmountSoFar(rows: Rows, id: string, f: Field): int {
    if id in rows then By(f)(rows[id]) else 0
  }

  lemma RowsStep(rs: seq<Record>, n: nat, c: Context, rows: Rows, row: SessionRow)
    requires n < |rs| && RowsAt(rs, n, c, rows) && row.sessionID == SessionKeys(rs)[n] && Good(row.sums)
    requires forall f :: By(f)(row) == AmountSoFar(rows, SessionKeys(rs)[n], f) + Amounts(rs, c, f)[n]
    ensures RowsAt(rs, n + 1, c, rows[SessionKeys(rs)[n] := row])
  {
    var keys := SessionKeys(rs);
    KeyStep(keys, n, rows, row);
    forall f
      ensures Tallied(keys, Amounts(rs, c, f), n + 1, rows[keys[n] := row], By(f))
    {
      TallyStep(keys, Amounts(rs, c, f), n, rows, row, By(f));
    }
  }

  lemma FactsStep(rs: seq<Record>, n: nat, facts: FactTable, next: Facts, candidate: bool)
    requires n < |rs| && FactsAt(rs, n, facts)
    requires CandidateFlags(rs)[n] == if candidate then 1 else 0
    requires next.sessionID == SessionKeys(rs)[n] && 0 <= next.attributed <= next.candidates
    requires next.candidates ==
      (if SessionKeys(rs)[n] in facts then facts[SessionKeys(rs)[n]].candidates else 0) + (if candidate then 1 else 0)
    ensures FactsAt(rs, n + 1, facts[SessionKeys(rs)[n] := next])
  {
    hide KeyedBy, Tallied, CandidateFlags, SessionKeys, Filed, Attributes;
    var keys := SessionKeys(rs);
    FlagsLength(rs);
    KeyStep(keys, n, facts, next);
    TallyStep(keys, CandidateFlags(rs), n, facts, next, Candidates());
    FiledStep(facts, keys[n], next);
  }

  lemma FlagsLength(rs: seq<Record>)
    ensures |CandidateFlags(rs)| == |SessionKeys(rs)| == |rs|
  {
  }

  lemma FiledStep(facts: FactTable, k: string, next: Facts)
    requires Filed(facts) && Attributes(facts) && next.sessionID == k && 0 <= next.attributed <= next.candidates
    ensures Filed(facts[k := next]) && Attributes(facts[k := next])
  {
  }

  lemma TotalsStep(rs: seq<Record>, n: nat, c: Context, t: Sums, next: Sums)
    requires n < |rs| && TotalsAt(rs, n, c, t)
    requires forall f :: Amount(next, f) == Amount(t, f) + DirectShare(rs[n], f)
    ensures TotalsAt(rs, n + 1, c, next)
  {
    forall f
      ensures Amount(next, f) == if Direct(f) then SumTo(Amounts(rs, c, f), n + 1) else 0
    {
      if Direct(f) {
        DirectShareIsRecordAmount(rs[n], Remaining(rs, n, c), c.ratio, f);
        assert Amounts(rs, c, f)[n] == DirectShare(rs[n], f);
      }
    }
  }

  // ---- negative events ----

  function EventsOf(rs: seq<Record>): seq<Negative.Event> {
    seq(|rs|, i requires 0 <= i < |rs| => EventOf(rs[i]))
  }

  // What charging so many events and tokens does to field f.
  function PenaltyAmount(events: int, tokens: int, f: Field): int {
    match f
    case NegativeEvents => events
    case NegativeEventTokens => tokens
    case NetSaved => -tokens
    case _ => 0
  }

  predicate Penalized(f: Field) {
    f.NegativeEvents? || f.NegativeEventTokens? || f.NetSaved?
  }

  // What a session is charged for its records.
  function ChargeOf(records: seq<Record>, f: Field): int {
    var charges := Negative.Charges(EventsOf(records));
    PenaltyAmount(Negative.PositiveOf(charges, |charges|), Negative.SumOf(charges, |charges|), f)
  }

  function ByCharge(f: Field): seq<Record> -> int {
    (records: seq<Record>) => ChargeOf(records, f)
  }

  function Charged(records: map<string, seq<Record>>, k: string, f: Field): int {
    if k in records then ChargeOf(records[k], f) else 0
  }

  lemma ChargesOrNone(rs: seq<Record>)
    ensures var charges := Negative.Charges(EventsOf(rs));
      Negative.SumOf(charges, |charges|) == 0 <==> Negative.PositiveOf(charges, |charges|) == 0
  {
    var charges := Negative.Charges(EventsOf(rs));
    Negative.ChargesCoverEvents(charges, |charges|);
  }

  function PenalizeSums(s: Sums, events: int, tokens: int): (r: Sums)
    ensures forall f :: Amount(r, f) == Amount(s, f) + PenaltyAmount(events, tokens, f)
    ensures Good(s) ==> Good(r)
  {
    s.(negativeEvents := s.negativeEvents + events,
       negativeEventTokens := s.negativeEventTokens + tokens,
       netSaved := s.netSaved - tokens)
  }

  function Penalize(row: SessionRow, events: int, tokens: int): (r: SessionRow)
    ensures forall f :: By(f)(r) == By(f)(row) + PenaltyAmount(events, tokens, f)
    ensures r.sessionID == row.sessionID && (Good(row.sums) ==> Good(r.sums))
  {
    row.(sums := PenalizeSums(row.sums, events, tokens))
  }

  lemma BalanceKept(rows: Rows, k: string, row: SessionRow, events: int, tokens: int)
    requires k in rows && forall f :: By(f)(row) == By(f)(rows[k]) + PenaltyAmount(events, tokens, f)
    ensures forall f :: Total(rows[k := row], By(f)) == Total(rows, By(f)) + PenaltyAmount(events, tokens, f)
  {
    forall f
      ensures Total(rows[k := row], By(f)) == Total(rows, By(f)) + PenaltyAmount(events, tokens, f)
    {
      TotalUpdate(rows, By(f), k, row);
    }
  }

  // Every row but those in todo has been charged for its session's records.
  ghost predicate ChargedRows(before: Rows, after: Rows, records: map<string, seq<Record>>, todo: set<string>) {
    && before.Keys == after.Keys && GoodRows(after)
    && forall k, f :: k in after ==>
      By(f)(after[k]) == By(f)(before[k]) + if k in todo then 0 else Charged(records, k, f)
  }

  // The totals have moved as the rows have, and only where penalties go.
  ghost predicate MovedTogether(t: Sums, rows: Rows, t': Sums, rows': Rows) {
    && (forall f :: Amount(t', f) - Total(rows', By(f)) == Amount(t, f) - Total(rows, By(f)))
    && (forall f :: !Penalized(f) ==> Amount(t', f) == Amount(t, f))
  }

  lemma MoveOn(t: Sums, rows: Rows, t': Sums, rows': Rows, t'': Sums, rows'': Rows)
    requires MovedTogether(t, rows, t', rows') && MovedTogether(t', rows', t'', rows'')
    ensures MovedTogether(t, rows, t'', rows'')
  {
    hide Amount, Penalized, By;
  }

  lemma ChargedIs(records: map<string, seq<Record>>, k: string, events: int, tokens: int)
    requires k in records
    requires var charges := Negative.Charges(EventsOf(records[k]));
      events == Negative.PositiveOf(charges, |charges|) && tokens == Negative.SumOf(charges, |charges|)
    ensures forall f :: Charged(records, k, f) == PenaltyAmount(events, tokens, f)
    ensures events == 0 || tokens == 0 ==> forall f :: Charged(records, k, f) == 0
  {
    ChargesOrNone(records[k]);
  }

  lemma PenaltyMoves(t: Sums, rows: Rows, k: string, events: int, tokens: int)
    requires k in rows
    ensures MovedTogether(t, rows, PenalizeSums(t, events, tokens), rows[k := Penalize(rows[k], events, tokens)])
  {
    hide Amount, By, Penalize, PenalizeSums;
    BalanceKept(rows, k, Penalize(rows[k], events, tokens), events, tokens);
  }

  lemma PenalizedAreGood(rows: Rows, k: string, events: int, tokens: int)
    requires k in rows && GoodRows(rows)
    ensures GoodRows(rows[k := Penalize(rows[k], events, tokens)])
  {
    hide Good, By, Penalize;
  }

  lemma NothingMovedYet(t: Sums, rows: Rows)
    ensures MovedTogether(t, rows, t, rows)
  {
    hide Amount, By;
  }

  lemma NothingCharged(rows: Rows, records: map<string, seq<Record>>)
    requires GoodRows(rows)
    ensures ChargedRows(rows, rows, records, records.Keys)
  {
    hide Amount, GoodRows;
  }

  lemma ChargeStep(before: Rows, rows: Rows, next: Rows, records: map<string, seq<Record>>, todo: set<string>,
                   k: string)
    requires ChargedRows(before, rows, records, todo) && k in todo && next.Keys == rows.Keys && GoodRows(next)
    requires forall j :: j in rows && j != k ==> next[j] == rows[j]
    requires forall f :: k in rows ==> By(f)(next[k]) == By(f)(rows[k]) + Charged(records, k, f)
    ensures ChargedRows(before, next, records, todo - {k})
  {
    hide Amount, GoodRows, Charged, By;
  }

  const NEW_TOTALS := ZERO.(evidence := Some(NO_EVIDENCE))

  lemma LedgerStart(rs: seq<Record>, c: Context)
    ensures TotalsAt(rs, 0, c, NEW_TOTALS) && RowsAt(rs, 0, c, map[]) && FactsAt(rs, 0, map[])
  {
    forall f
      ensures Tallied(SessionKeys(rs), Amounts(rs, c, f), 0, map[], By(f))
    {
      TallyStart(SessionKeys(rs), Amounts(rs, c, f), By(f));
    }
    TallyStart(SessionKeys(rs), CandidateFlags(rs), Candidates());
  }

  lemma NothingRead(rs: seq<Record>)
    ensures KeysCounted(SessionKeys(rs), 0, map[]) && RecordsAt(rs, 0, map[])
  {
  }

  class Ledger {
    var totals: Sums
    var bySession: Rows
    var byFacts: FactTable

    constructor ()
      ensures totals == NEW_TOTALS && bySession == map[] && byFacts == map[]
    {
      totals, bySession, byFacts := NEW_TOTALS, map[], map[];
    }

    // The row of the record's session, started if need be, with the record added.
    method AddToSession(rs: seq<Record>, i: nat, c: Context, remaining: int)
      requires i < |rs| && remaining == Remaining(rs, i, c)
      requires RowsAt(rs, i, c, bySession)
      modifies this`bySession
      ensures RowsAt(rs, i + 1, c, bySession)
    {
      var id := SessionIDOf(rs, i);
      var row := if id in bySession then bySession[id] else NewRow(id);
      row := RowWith(row, rs[i], remaining, c.ratio);
      assert Amounts(rs, c, Requests)[i] == RecordAmount(rs[i], remaining, c.ratio, Requests);
      RowsStep(rs, i, c, bySession, row);
      bySession := bySession[id := row];
    }

    // Each session is charged for its negative events, and the totals with it.
    method ApplyNegativeEvents(records: map<string, seq<Record>>)
      requires GoodRows(bySession)
      modifies this`totals, this`bySession
      ensures ChargedRows(old(bySession), bySession, records, {})
      ensures MovedTogether(old(totals), old(bySession), totals, bySession)
    {
      hide ChargedRows, MovedTogether, Charged, GoodRows, Amount, By;
      ghost var rows, t := bySession, totals;
      NothingCharged(bySession, records);
      NothingMovedYet(totals, bySession);
      var todo := records.Keys;
      while todo != {}
        invariant todo <= records.Keys && GoodRows(bySession)
        invariant ChargedRows(rows, bySession, records, todo)
        invariant MovedTogether(t, rows, totals, bySession)
        decreases |todo|
      {
        var k :| k in todo;
        ghost var rows', t' := bySession, totals;
        if k in bySession {
          ChargeSession(records, k);
          MoveOn(t, rows, t', rows', totals, bySession);
        }
        ChargeStep(rows, rows', bySession, records, todo, k);
        todo := todo - {k};
      }
    }

    method ChargeSession(records: map<string, seq<Record>>, k: string)
      requires k in records && k in bySession && GoodRows(bySession)
      modifies this`totals, this`bySession
      ensures bySession.Keys == old(bySession).Keys && GoodRows(bySession)
      ensures forall j :: j in bySession && j != k ==> bySession[j] == old(bySession)[j]
      ensures forall f :: By(f)(bySession[k]) == By(f)(old(bySession)[k]) + Charged(records, k, f)
      ensures MovedTogether(old(totals), old(bySession), totals, bySession)
    {
      hide Amount, By, Good, GoodRows, MovedTogether, PenaltyAmount, Penalize, PenalizeSums, Charged;
      var events, tokens := Negative.NegativeEventsForSession(EventsOf(records[k]));
      ChargedIs(records, k, events, tokens);
      if events == 0 || tokens == 0 {
        NothingMovedYet(totals, bySession);
        return;
      }
      var row := Penalize(bySession[k], events, tokens);
      PenaltyMoves(totals, bySession, k, events, tokens);
      PenalizedAreGood(bySession, k, events, tokens);
      bySession := bySession[k := row];
      totals := PenalizeSums(totals, events, tokens);
    }

    method AddToFacts(rs: seq<Record>, i: nat)
      requires i < |rs| && FactsAt(rs, i, byFacts)
      modifies this`byFacts
      ensures FactsAt(rs, i + 1, byFacts)
    {
      var r := rs[i];
      var id := DecisionSessionID(r);
      var facts := if id in byFacts then byFacts[id] else Facts(id, "", 0, 0, "");
      facts := facts.(clientFamily := FirstNonEmpty(facts.clientFamily, ClientFamily(r)));
      var candidate := IsCodexCandidate(r, id);
      if candidate {
        facts := facts.(
          candidates := facts.candidates + 1,
          attributed := facts.attributed + if IsAttributed(r, id) then 1 else 0);
      }
      FactsStep(rs, i, byFacts, facts, candidate);
      byFacts := byFacts[id := facts];
    }

    // After the log loop every field of every row, and every direct grand total, is
    // the sum of what the records in the window contribute.
    method Accumulate(rs: seq<Record>, c: Context) returns (records: map<string, seq<Record>>)
      requires totals == NEW_TOTALS && bySession == map[] && byFacts == map[]
      modifies this
      ensures LedgerAt(rs, |rs|, c)
      ensures records == SessionLog(rs)
    {
      hide *;
      NothingRead(rs);
      var inAll := CountKeys(SessionKeys(rs));
      NothingInLedger(rs, c);
      var seen: map<string, int> := map[];
      records := map[];
      for i := 0 to |rs|
        invariant KeysCounted(SessionKeys(rs), i, seen) && RecordsAt(rs, i, records)
        invariant LedgerAt(rs, i, c)
      {
        var remaining;
        remaining, seen := NextRemaining(rs, i, c, inAll, seen);
        records := KeepRecord(rs, i, records);
        AddToLedger(rs, i, c, remaining);
      }
      RecordsAreLog(rs, records);
    }

    lemma NothingInLedger(rs: seq<Record>, c: Context)
      requires totals == NEW_TOTALS && bySession == map[] && byFacts == map[]
      ensures LedgerAt(rs, 0, c) && |SessionKeys(rs)| == |rs|
    {
      hide TotalsAt, RowsAt, FactsAt;
      LedgerStart(rs, c);
    }

    ghost predicate LedgerAt(rs: seq<Record>, n: nat, c: Context)
      requires n <= |rs|
      reads this
    {
      TotalsAt(rs, n, c, totals) && RowsAt(rs, n, c, bySession) && FactsAt(rs, n, byFacts)
    }

    method AddToLedger(rs: seq<Record>, i: nat, c: Context, remaining: int)
      requires i < |rs| && LedgerAt(rs, i, c) && remaining == Remaining(rs, i, c)
      modifies this
      ensures LedgerAt(rs, i + 1, c)
    {
      var t := AddToTotals(totals, rs[i]);
      TotalsStep(rs, i, c, totals, t);
      totals := t;
      AddToFacts(rs, i);
      AddToSession(rs, i, c, remaining);
    }
  }

  method SessionIDOf(rs: seq<Record>, i: nat) returns (id: string)
    requires i < |rs|
    ensures id == SessionKeys(rs)[i]
  {
    id := DecisionSessionID(rs[i]);
  }

  method NextRemaining(rs: seq<Record>, i: nat, c: Context, inAll: map<string, int>, seen: map<string, int>)
    returns (remaining: int, seen': map<string, int>)
    requires i < |rs| && KeysCounted(SessionKeys(rs), |rs|, inAll) && KeysCounted(SessionKeys(rs), i, seen)
    ensures remaining == Remaining(rs, i, c) && KeysCounted(SessionKeys(rs), i + 1, seen')
  {
    hide CountFor, RemainingRequests, DecisionSessionID;
    var id := SessionIDOf(rs, i);
    CountStep(SessionKeys(rs), i, seen);
    assert CountIn(inAll, id) == CountFor(SessionKeys(rs), |rs|, id);
    hide KeysCounted, CountIn;
    seen' := seen[id := CountIn(seen, id) + 1];
    remaining := RemainingRequests(CountIn(inAll, id) - seen'[id], seen'[id], rs[i], c);
  }

  method KeepRecord(rs: seq<Record>, i: nat, records: map<string, seq<Record>>)
    returns (r: map<string, seq<Record>>)
    requires i < |rs| && RecordsAt(rs, i, records)
    ensures RecordsAt(rs, i + 1, r)
  {
    var id := SessionIDOf(rs, i);
    RecordsStep(rs, i, records);
    r := records[id := (if id in records then records[id] else []) + [rs[i]]];
  }
}
