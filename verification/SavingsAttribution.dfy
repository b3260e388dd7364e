// The Codex request totals of the report, summed from the facts of the sessions
// (cmd/slimference/savings_cmd.go:490-498 and 557-569).
module SavingsAttribution {
  import opened Basics
  import opened Strs
  import opened MapSums
  import opened SavingsMoves

  datatype CodexCounts = CodexCounts(requests: int, attributed: int, unattributed: int, reasons: map<string, int>)

  function Attributed(): Facts -> int {
    (f: Facts) => f.attributed
  }

  // The requests that the reasons account for.
  function Missing(f: Facts): int {
    if f.candidates <= f.attributed then 0 else f.candidates - f.attributed
  }

  function ByMissing(): Facts -> int {
    (f: Facts) => Missing(f)
  }

  function ReasonOf(f: Facts): string {
    var reason := TrimSpace(f.reason);
    if reason == "" then "missing_thread_identity" else reason
  }

  lemma ReasonMeans(f: Facts)
    ensures Blank(f.reason) ==> ReasonOf(f) == "missing_thread_identity"
    ensures !Blank(f.reason) ==> ReasonOf(f) == TrimSpace(f.reason)
  {
    TrimsToNothing(f.reason);
  }

  function MissingFor(reason: string): Facts -> int {
    (f: Facts) => if ReasonOf(f) == reason then Missing(f) else 0
  }

  function Count(): int -> int {
    (n: int) => n
  }

  // No session has more attributed requests than requests.
  predicate Attributes(facts: FactTable) {
    forall k :: k in facts ==> 0 <= facts[k].attributed <= facts[k].candidates
  }

  // Facts that were read, and facts still to read, make up the table.
  ghost predicate ReasonsSplit(facts: FactTable, rest: FactTable, reasons: map<string, int>) {
    && Total(reasons, Count()) + Total(rest, ByMissing()) == Total(facts, ByMissing())
    && forall r :: CountIn(reasons, r) + Total(rest, MissingFor(r)) == Total(facts, MissingFor(r))
  }

  function WithReason(reasons: map<string, int>, f: Facts): map<string, int> {
    if f.candidates <= f.attributed then reasons
    else reasons[ReasonOf(f) := CountIn(reasons, ReasonOf(f)) + (f.candidates - f.attributed)]
  }

  lemma ReasonStep(facts: FactTable, rest: FactTable, reasons: map<string, int>, k: string)
    requires ReasonsSplit(facts, rest, reasons) && k in rest
    ensures ReasonsSplit(facts, rest - {k}, WithReason(reasons, rest[k]))
  {
    hide WithReason, MissingFor, Missing, CountIn;
    TotalRemove(rest, ByMissing(), k);
    ReasonAdds(reasons, rest[k]);
    forall r
      ensures CountIn(WithReason(reasons, rest[k]), r) + Total(rest - {k}, MissingFor(r)) == Total(facts, MissingFor(r))
    {
      TotalRemove(rest, MissingFor(r), k);
    }
  }

  lemma ReasonAdds(reasons: map<string, int>, f: Facts)
    ensures Total(WithReason(reasons, f), Count()) == Total(reasons, Count()) + Missing(f)
    ensures forall r :: CountIn(WithReason(reasons, f), r) == CountIn(reasons, r) + MissingFor(r)(f)
  {
    hide ReasonOf;
    TotalUpdate(reasons, Count(), ReasonOf(f), CountIn(reasons, ReasonOf(f)) + (f.candidates - f.attributed));
  }

  // In whatever order the facts are ranged.
  method CountCodex(facts: FactTable) returns (r: CodexCounts)
    ensures r.requests == Total(facts, Candidates())
    ensures r.attributed == Min(Total(facts, Attributed()), r.requests)
    ensures r.unattributed == r.requests - r.attributed
    ensures forall reason :: CountIn(r.reasons, reason) == Total(facts, MissingFor(reason))
    ensures Total(r.reasons, Count()) == Total(facts, ByMissing())
  {
    hide ReasonsSplit, WithReason, CountIn;
    var requests, attributed := 0, 0;
    var reasons: map<string, int> := map[];
    var rest := facts;
    NoReasonYet(facts);
    while rest != map[]
      invariant requests + Total(rest, Candidates()) == Total(facts, Candidates())
      invariant attributed + Total(rest, Attributed()) == Total(facts, Attributed())
      invariant ReasonsSplit(facts, rest, reasons)
      decreases |rest|
    {
      var k :| k in rest;
      TotalRemove(rest, Candidates(), k);
      TotalRemove(rest, Attributed(), k);
      ReasonStep(facts, rest, reasons, k);
      requests := requests + rest[k].candidates;
      attributed := attributed + rest[k].attributed;
      reasons := WithReason(reasons, rest[k]);
      rest := rest - {k};
    }
    if attributed > requests {
      attributed := requests;
    }
    r := CodexCounts(requests, attributed, requests - attributed, reasons);
    AllRead(facts, reasons);
  }

  lemma NoReasonYet(facts: FactTable)
    ensures ReasonsSplit(facts, facts, map[])
  {
  }

  lemma AllRead(facts: FactTable, reasons: map<string, int>)
    requires ReasonsSplit(facts, map[], reasons)
    ensures forall reason :: CountIn(reasons, reason) == Total(facts, MissingFor(reason))
    ensures Total(reasons, Count()) == Total(facts, ByMissing())
  {
  }

  // Then the totals need no cap, and the reasons account for exactly the unattributed
  // requests.
  lemma ReasonsAccount(facts: FactTable)
    requires Attributes(facts)
    ensures Total(facts, Attributed()) <= Total(facts, Candidates())
    ensures Total(facts, ByMissing()) == Total(facts, Candidates()) - Total(facts, Attributed())
  {
    TotalDifference(facts, ByMissing(), Candidates(), Attributed());
    TotalNonNegative(facts, ByMissing());
  }

  // Moving sessions attributes all requests that arrive, and touches no others.
  lemma StillAttributes<R>(p: Plan<R>, moved: set<string>, facts: FactTable)
    requires FactsKept(p, moved, facts) && Attributes(p.facts)
    ensures Attributes(facts)
  {
    hide Landed;
    forall k | k in facts
      ensures 0 <= facts[k].attributed <= facts[k].candidates
    {
      if k in Landed(p, moved) {
        assert FactsOfOne(p, moved, k, facts[k]);
      } else {
        assert SameButReason(facts[k], p.facts[k]);
      }
    }
  }
}
