// Negative events: an upstream error whose retry re-sends more than the usual
// delta costs tokens (cmd/slimference/savings_cmd.go:569-663).
module SavingsNegative {
  import opened Strs
  import opened Medians

  // What the charge reads off a record: when it came, its original tokens, whether it
  // is an upstream error and whether it continues a previous response.
  datatype Event = Event(timestamp: Option<int>, original: int, error: bool, continues: bool)

  predicate IsPriorDelta(e: Event) {
    e.continues && !e.error && e.original > 0
  }

  // A size to compare with: that of a request that continued and did not fail.
  lemma PriorDeltaMeans(e: Event)
    ensures IsPriorDelta(e) <==> !(e.error || !e.continues || e.original < 1)
  {
  }

  // 120 seconds, in nanoseconds.
  const RETRY_WINDOW := 120_000_000_000

  // A record that can be the retry of an error at errorAt, whether or not it comes in time.
  predicate Follows(r: Event, errorAt: Option<int>) {
    r.timestamp.Some? && r.original > 0 && (errorAt.Some? ==> r.timestamp.value >= errorAt.value)
  }

  predicate InTime(r: Event, errorAt: Option<int>)
    requires Follows(r, errorAt)
  {
    errorAt.Some? ==> r.timestamp.value - errorAt.value < RETRY_WINDOW
  }

  predicate CanRetry(error: Event, r: Event) {
    && r.timestamp.Some? && r.original >= 1
    && (error.timestamp.Some? ==> error.timestamp.value <= r.timestamp.value)
  }

  predicate WithinTwoMinutes(error: Event, r: Event) {
    error.timestamp.Some? && r.timestamp.Some? ==> r.timestamp.value < error.timestamp.value + 120_000_000_000
  }

  // Events[j] is the first one after i that can be the retry of i.
  ghost predicate FirstFollower(records: seq<Event>, i: nat, j: int) {
    i < j < |records| && CanRetry(records[i], records[j])
    && forall k :: i < k < j ==> !CanRetry(records[i], records[k])
  }

  function RetryFrom(records: seq<Event>, errorAt: Option<int>, j: nat): Option<Event>
    requires j <= |records|
    decreases |records| - j
  {
    if j == |records| then None
    else if !Follows(records[j], errorAt) then RetryFrom(records, errorAt, j + 1)
    else if InTime(records[j], errorAt) then Some(records[j])
    else None
  }

  // The retry is the first later record that follows the error, provided it is in time.
  lemma {:induction false} RetryIsFirstFollower(records: seq<Event>, i: nat, from: nat)
    requires i < from <= |records|
    requires forall k :: i < k < from ==> !CanRetry(records[i], records[k])
    ensures forall r :: RetryFrom(records, records[i].timestamp, from) == Some(r) <==>
      exists j :: FirstFollower(records, i, j) && WithinTwoMinutes(records[i], records[j]) && records[j] == r
    decreases |records| - from
  {
    if from < |records| {
      if Follows(records[from], records[i].timestamp) {
        assert FirstFollower(records, i, from);
        assert forall j :: FirstFollower(records, i, j) ==> j == from;
      } else {
        RetryIsFirstFollower(records, i, from + 1);
      }
    }
  }

  method NextRetry(records: seq<Event>, i: nat) returns (retry: Option<Event>)
    requires i < |records|
    ensures retry == RetryFrom(records, records[i].timestamp, i + 1)
  {
    var errorAt := records[i].timestamp;
    for j := i + 1 to |records|
      invariant RetryFrom(records, errorAt, i + 1) == RetryFrom(records, errorAt, j)
    {
      var summary := records[j];
      if summary.timestamp.None? || summary.original <= 0 {
        continue;
      }
      if errorAt.Some? {
        if summary.timestamp.value < errorAt.value {
          continue;
        }
        if summary.timestamp.value - errorAt.value >= RETRY_WINDOW {
          return None;
        }
      }
      return Some(summary);
    }
    return None;
  }

  function PriorDeltas(records: seq<Event>, n: nat): seq<int>
    requires n <= |records|
  {
    if n == 0 then []
    else PriorDeltas(records, n - 1) + if IsPriorDelta(records[n - 1]) then [records[n - 1].original] else []
  }

  // Tokens charged to record i: its retry's size beyond the median earlier delta.
  function Charge(records: seq<Event>, i: nat): nat
    requires i < |records|
  {
    if !records[i].error then 0
    else
      var median := Median(PriorDeltas(records, i));
      var retry := RetryFrom(records, records[i].timestamp, i + 1);
      if median > 0 && retry.Some? && retry.value.original > median then retry.value.original - median else 0
  }

  function Charges(records: seq<Event>): seq<nat> {
    seq(|records|, i requires 0 <= i < |records| => Charge(records, i))
  }

  function SumOf(xs: seq<nat>, n: nat): nat
    requires n <= |xs|
  {
    if n == 0 then 0 else SumOf(xs, n - 1) + xs[n - 1]
  }

  function PositiveOf(xs: seq<nat>, n: nat): nat
    requires n <= |xs|
  {
    if n == 0 then 0 else PositiveOf(xs, n - 1) + if xs[n - 1] > 0 then 1 else 0
  }

  ghost predicate Explained(records: seq<Event>, charges: seq<nat>) {
    |charges| == |records|
    && forall i {:trigger Charge(records, i)} :: 0 <= i < |records| ==> charges[i] == Charge(records, i)
  }

  method ChargeRecord(records: seq<Event>, i: nat, priorDeltas: seq<int>, ghost charges: seq<nat>)
    returns (extra: int)
    requires i < |records| && Explained(records, charges)
    requires priorDeltas == PriorDeltas(records, i)
    ensures extra == charges[i]
  {
    extra := 0;
    if records[i].error {
      var median := MedianPositive(priorDeltas);
      if median > 0 {
        var retry := NextRetry(records, i);
        if retry.Some? && retry.value.original - median > 0 {
          extra := retry.value.original - median;
        }
      }
    }
    assert extra == Charge(records, i);
  }

  method NotePriorDelta(records: seq<Event>, i: nat, priorDeltas: seq<int>) returns (r: seq<int>)
    requires i < |records| && priorDeltas == PriorDeltas(records, i)
    ensures r == PriorDeltas(records, i + 1)
  {
    r := priorDeltas;
    if IsPriorDelta(records[i]) {
      r := r + [records[i].original];
    }
  }

  method ChargeRecords(records: seq<Event>, ghost charges: seq<nat>) returns (events: int, tokens: int)
    requires Explained(records, charges)
    ensures ChargedAt(charges, |charges|, events, tokens)
  {
    var priorDeltas := [];
    events, tokens := 0, 0;
    for i := 0 to |records|
      invariant priorDeltas == PriorDeltas(records, i)
      invariant ChargedAt(charges, i, events, tokens)
    {
      var extra := ChargeRecord(records, i, priorDeltas, charges);
      priorDeltas := NotePriorDelta(records, i, priorDeltas);
      events, tokens := Count(charges, i, extra, events, tokens);
    }
  }

  method NegativeEventsForSession(records: seq<Event>) returns (events: int, tokens: int)
    ensures events == PositiveOf(Charges(records), |records|)
    ensures tokens == SumOf(Charges(records), |records|)
  {
    events, tokens := ChargeRecords(records, Charges(records));
  }

  ghost predicate ChargedAt(charges: seq<nat>, n: nat, events: int, tokens: int)
    requires n <= |charges|
  {
    events == PositiveOf(charges, n) && tokens == SumOf(charges, n)
  }

  method Count(ghost charges: seq<nat>, ghost i: nat, extra: int, events: int, tokens: int)
    returns (events': int, tokens': int)
    requires i < |charges| && extra == charges[i] && ChargedAt(charges, i, events, tokens)
    ensures ChargedAt(charges, i + 1, events', tokens')
  {
    events', tokens' := events, tokens;
    if extra > 0 {
      events' := events + 1;
      tokens' := tokens + extra;
    }
  }

  // Every charged event costs at least one token, and only events cost tokens.
  lemma {:induction false} ChargesCoverEvents(charges: seq<nat>, n: nat)
    requires n <= |charges|
    ensures SumOf(charges, n) >= PositiveOf(charges, n)
    ensures SumOf(charges, n) == 0 <==> PositiveOf(charges, n) == 0
  {
    if n > 0 {
      ChargesCoverEvents(charges, n - 1);
    }
  }
}
