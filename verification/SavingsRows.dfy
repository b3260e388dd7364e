// Session rows and attribution facts of the savings ledger.
module SavingsRows {
  import opened SavingsSums
  import opened SavingsRecords
  import opened SavingsBilling

  datatype SessionRow = SessionRow(
    sessionID: string, displayName: string, projectPath: string, clientFamily: string, routeMode: string, sums: Sums)

  type Rows = map<string, SessionRow>

  function By(f: Field): SessionRow -> int {
    (r: SessionRow) => Amount(r.sums, f)
  }

  function BillOf(s: Sums): Bill {
    Bill(s.providerInput, s.final, s.cacheRead, s.cacheCreate, s.negativeEventTokens)
  }

  function ByBill(ratio: real): SessionRow -> int {
    (r: SessionRow) => Billed(BillOf(r.sums), ratio)
  }

  // Rows are filed under the session they describe.
  predicate GoodRows(rows: Rows) {
    forall k :: k in rows ==> rows[k].sessionID == k && Good(rows[k].sums)
  }

  // No row counts negative input or reads.
  predicate Billable(rows: Rows) {
    forall k :: k in rows ==> Counts0(BillOf(rows[k].sums))
  }

  // What a row nets out: local savings less penalties, reads less creates.
  predicate NetsOut(s: Sums) {
    s.netSaved == s.localSaved - s.negativeEventTokens && s.cacheNet == s.cacheRead - s.cacheCreate
  }

  function FirstNonEmpty(a: string, b: string): string {
    if a == "" then b else a
  }

  function NewRow(id: string): (r: SessionRow)
    ensures r.sessionID == id && Good(r.sums)
    ensures r.displayName == r.projectPath == r.clientFamily == r.routeMode == ""
    ensures forall f :: Amount(r.sums, f) == 0
  {
    SessionRow(id, "", "", "", "", ZERO)
  }

  // The row with one more record added.
  method RowWith(row: SessionRow, r: Record, remaining: int, ratio: real) returns (next: SessionRow)
    ensures Good(row.sums) ==> Good(next.sums)
    ensures forall f :: By(f)(next) == By(f)(row) + RecordAmount(r, remaining, ratio, f)
    ensures next.sessionID == row.sessionID
  {
    var sums := AddRecord(row.sums, r, remaining, ratio);
    next := row.(
      clientFamily := FirstNonEmpty(row.clientFamily, ClientFamily(r)),
      routeMode := FirstNonEmpty(row.routeMode, RouteMode(r)),
      sums := sums);
  }

  method MergeSession(dst: SessionRow, src: SessionRow) returns (r: SessionRow)
    ensures Good(src.sums) ==> forall f :: Amount(r.sums, f) == Amount(dst.sums, f) + Amount(src.sums, f)
    ensures Good(dst.sums) && Good(src.sums) ==> Good(r.sums)
    ensures r.sessionID == dst.sessionID
    ensures r.clientFamily == FirstNonEmpty(dst.clientFamily, src.clientFamily)
      && r.routeMode == FirstNonEmpty(dst.routeMode, src.routeMode)
      && r.displayName == FirstNonEmpty(dst.displayName, src.displayName)
      && r.projectPath == FirstNonEmpty(dst.projectPath, src.projectPath)
  {
    var sums := MergeSums(dst.sums, src.sums);
    r := SessionRow(
      dst.sessionID,
      FirstNonEmpty(dst.displayName, src.displayName),
      FirstNonEmpty(dst.projectPath, src.projectPath),
      FirstNonEmpty(dst.clientFamily, src.clientFamily),
      FirstNonEmpty(dst.routeMode, src.routeMode),
      sums);
  }

  // Rows that agree on every field agree on the derived identities and the bill.
  lemma MergedRow(dst: Sums, src: Sums, r: Sums, ratio: real)
    requires forall f :: Amount(r, f) == Amount(dst, f) + Amount(src, f)
    ensures NetsOut(dst) && NetsOut(src) ==> NetsOut(r)
    ensures BillOf(r) == Pool(BillOf(dst), BillOf(src))
    ensures Counts0(BillOf(dst)) && Counts0(BillOf(src)) ==>
        Billed(BillOf(r), ratio) <= Billed(BillOf(dst), ratio) + Billed(BillOf(src), ratio)
  {
    assert Amount(r, ProviderInput) == r.providerInput;
    assert Amount(r, Final) == r.final;
    assert Amount(r, CacheRead) == r.cacheRead;
    assert Amount(r, CacheCreate) == r.cacheCreate;
    assert Amount(r, CacheNet) == r.cacheNet;
    assert Amount(r, NegativeEventTokens) == r.negativeEventTokens;
    assert Amount(r, NetSaved) == r.netSaved;
    assert Amount(r, LocalSaved) == r.localSaved;
    if Counts0(BillOf(dst)) && Counts0(BillOf(src)) {
      PoolingNeverBillsMore(BillOf(dst), BillOf(src), ratio);
    }
  }
}
