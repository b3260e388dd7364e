// Whether the capped and the lossy counters really err towards compacting, as the
// comments of cmd/slimference/command_output_first_adaptive.go say.
module RefetchDecision {
  import opened RefetchBudget

  // The part of the output that compaction takes away: ratios outside [0, 1] count as the
  // nearer end.
  predicate IsGain(ratio: real, gain: real) {
    && (0.0 <= ratio <= 1.0 ==> gain + ratio == 1.0) && (ratio < 0.0 ==> gain == 1.0) && (ratio > 1.0 ==> gain == 0.0)
  }

  // Five samples, and re-fetches that outweigh the gain.
  lemma PassedIff(c: Counts, ratio: real, gain: real)
    requires IsGain(ratio, gain)
    ensures ShouldFullPass(c, ratio) <==> c.applied >= 5 && c.refetch as real >= gain * c.applied as real
  {
    PassMeans(c, ratio);
  }

  // The break-even test without division.
  lemma PassMeans(c: Counts, ratio: real)
    ensures ShouldFullPass(c, ratio) <==>
      c.applied >= MIN_SAMPLES && c.refetch as real >= (1.0 - Clamp(ratio)) * c.applied as real
  {
    if c.applied >= MIN_SAMPLES {
      DivMeans(c.refetch as real, c.applied as real, 1.0 - Clamp(ratio));
    }
  }

  lemma DivMeans(r: real, a: real, b: real)
    requires a > 0.0
    ensures r / a >= b <==> r >= b * a
  {
    assert (r / a) * a == r;
    Cross(r / a, r, a, b);
  }

  lemma Cross(q: real, r: real, a: real, b: real)
    requires a > 0.0 && q * a == r
    ensures q >= b <==> r >= b * a
  {
    if q >= b {
      MulMono(b, q, a);
    } else {
      MulStrict(q, b, a);
    }
  }

  lemma MulMono(x: real, y: real, a: real)
    requires x <= y && a >= 0.0
    ensures x * a <= y * a
  {
    var d := y - x;
    assert d * a >= 0.0;
    assert y * a == (x + d) * a == x * a + d * a;
  }

  lemma MulStrict(x: real, y: real, a: real)
    requires x < y && a > 0.0
    ensures x * a < y * a
  {
    var d := y - x;
    assert d * a > 0.0;
    assert y * a == (x + d) * a == x * a + d * a;
  }

  lemma ScaledDown(b: real, small: real, big: real, r: real)
    requires b >= 0.0 && small <= big && r >= b * big
    ensures r >= b * small
  {
    MulMono(small, big, b);
    assert b * small == small * b && b * big == big * b;
  }

  // Fewer applied and more re-fetched: the class is passed whenever it was, if there are
  // samples enough.
  lemma PassMono(c: Counts, d: Counts, ratio: real)
    requires d.applied <= c.applied && d.refetch >= c.refetch
    requires ShouldFullPass(c, ratio) && d.applied >= MIN_SAMPLES
    ensures ShouldFullPass(d, ratio)
  {
    hide ShouldFullPass;
    PassMeans(c, ratio);
    PassMeans(d, ratio);
    ScaledDown(1.0 - Clamp(ratio), d.applied as real, c.applied as real, c.refetch as real);
  }

  // The capped counters never pass a class that the uncapped ones would compact, exactly
  // when the cap has not lifted the class over the sample floor.
  lemma NeverOverSuppressesIff(calls: seq<Call>, command: string)
    ensures var c, i := Capped(calls, command), Ideal(calls, command);
      (forall ratio :: ShouldFullPass(c, ratio) ==> ShouldFullPass(i, ratio))
      <==> c.applied < MIN_SAMPLES || i.applied >= MIN_SAMPLES
  {
    hide Capped, Ideal;
    var c, i := Capped(calls, command), Ideal(calls, command);
    CappedRefinesIdeal(calls, command);
    if i.applied >= MIN_SAMPLES {
      forall ratio | ShouldFullPass(c, ratio) ensures ShouldFullPass(i, ratio) {
        PassMono(c, i, ratio);
      }
    } else if c.applied >= MIN_SAMPLES {
      PassMeans(c, 1.0);
      assert ShouldFullPass(c, 1.0) && !ShouldFullPass(i, 1.0);
    }
  }

  // Up to the cap there is nothing to err about.
  lemma ExactBelowCap(calls: seq<Call>, command: string, ratio: real)
    requires |Distinct(calls)| <= SEEN_CAP
    ensures ShouldFullPass(Capped(calls, command), ratio) == ShouldFullPass(Ideal(calls, command), ratio)
  {
    CappedRefinesIdeal(calls, command);
  }

  // ---- a lost increment ----

  // Losing a re-fetch errs towards compacting.
  lemma LostRefetch(c: Counts, ratio: real)
    requires c.refetch > 0 && ShouldFullPass(c.(refetch := c.refetch - 1), ratio)
    ensures ShouldFullPass(c, ratio)
  {
    PassMono(c.(refetch := c.refetch - 1), c, ratio);
  }

  // Losing an apply does so exactly when too few are left to decide by, or nothing was
  // re-fetched, or as much was as was applied.
  lemma LostApplyIff(c: Counts)
    requires c.applied > 0
    ensures (forall ratio :: ShouldFullPass(c.(applied := c.applied - 1), ratio) ==> ShouldFullPass(c, ratio))
       <==> c.applied - 1 < MIN_SAMPLES || c.refetch == 0 || c.refetch >= c.applied
  {
    var d := c.(applied := c.applied - 1);
    var a, r := c.applied as real, c.refetch as real;
    if d.applied >= MIN_SAMPLES {
      if c.refetch == 0 {
        forall ratio | ShouldFullPass(d, ratio) ensures ShouldFullPass(c, ratio) {
          PassMeans(d, ratio);
          PassMeans(c, ratio);
          NothingRefetched(1.0 - Clamp(ratio), d.applied as real);
        }
      } else if c.refetch >= c.applied {
        forall ratio | ShouldFullPass(d, ratio) ensures ShouldFullPass(c, ratio) {
          PassMeans(c, ratio);
          MulMono(1.0 - Clamp(ratio), 1.0, a);
        }
      } else {
        var q := r / (a - 1.0);
        assert q * (a - 1.0) == r;
        Between(q, r, a);
        PassMeans(d, 1.0 - q);
        PassMeans(c, 1.0 - q);
        assert Clamp(1.0 - q) == 1.0 - q;
        assert q * a == q * (a - 1.0) + q;
        assert !ShouldFullPass(c, 1.0 - q) && ShouldFullPass(d, 1.0 - q);
      }
    }
  }

  lemma NothingRefetched(b: real, a: real)
    requires b >= 0.0 && a > 0.0 && 0.0 >= b * a
    ensures b == 0.0
  {
    if b > 0.0 {
      MulStrict(0.0, b, a);
    }
  }

  lemma Between(q: real, r: real, a: real)
    requires a > 1.0 && 0.0 < r <= a - 1.0 && q * (a - 1.0) == r
    ensures 0.0 < q <= 1.0
  {
    if q <= 0.0 {
      MulMono(q, 0.0, a - 1.0);
    } else if q > 1.0 {
      MulStrict(1.0, q, a - 1.0);
    }
  }

  // ---- two overlapping invocations ----

  // Both load s, and b's save wins over a's; one after the other they would have left this.
  function Sequential(s: Saved, a: Call, b: Call): Saved {
    Recorded(Recorded(s, a), b)
  }

  function Overlapped(s: Saved, a: Call, b: Call): Saved {
    Recorded(s, b)
  }

  // The overlap loses an apply of the class: the first call is new, and the second one
  // would not have found it.
  predicate LosesApply(s: Saved, a: Call, b: Call) {
    a.identity !in s.seen && (a.identity != b.identity || |s.seen| >= SEEN_CAP)
  }

  // Of two overlapping calls of one class, exactly one increment is lost.
  lemma OverlapLoses(s: Saved, a: Call, b: Call)
    requires a.command == b.command
    ensures var kept := CountsOf(Overlapped(s, a, b).classes, a.command);
      CountsOf(Sequential(s, a, b).classes, a.command)
      == if LosesApply(s, a, b) then kept.(applied := kept.applied + 1) else kept.(refetch := kept.refetch + 1)
  {
  }

  // Calls of other classes, told apart by their identities, lose nothing.
  lemma OverlapKeepsOthers(s: Saved, a: Call, b: Call, command: string)
    requires command != a.command && a.identity != b.identity
    ensures CountsOf(Overlapped(s, a, b).classes, command) == CountsOf(Sequential(s, a, b).classes, command)
  {
  }

  // The overlapped counts never pass a class that the sequential ones would compact,
  // exactly when the lost increment was a re-fetch, or too few samples are left to decide
  // by, or nothing or everything was re-fetched.
  lemma OverlapNeverOverSuppressesIff(s: Saved, a: Call, b: Call)
    requires a.command == b.command
    ensures var kept := CountsOf(Overlapped(s, a, b).classes, a.command);
      var full := CountsOf(Sequential(s, a, b).classes, a.command);
      (forall ratio :: ShouldFullPass(kept, ratio) ==> ShouldFullPass(full, ratio))
      <==> !LosesApply(s, a, b) || kept.applied < MIN_SAMPLES || kept.refetch == 0 || kept.refetch > kept.applied
  {
    hide Overlapped, Sequential, LosesApply;
    OverlapLoses(s, a, b);
    var kept := CountsOf(Overlapped(s, a, b).classes, a.command);
    var full := CountsOf(Sequential(s, a, b).classes, a.command);
    if LosesApply(s, a, b) {
      LostApplyIff(full);
      assert full.(applied := full.applied - 1) == kept;
    } else {
      assert full.(refetch := full.refetch - 1) == kept;
      forall ratio | ShouldFullPass(kept, ratio) ensures ShouldFullPass(full, ratio) {
        LostRefetch(full, ratio);
      }
    }
  }

  // Five applies and two re-fetches so far; a new command overlaps with a known one. One
  // after the other they leave (6, 3), which is compacted at ratio 0.4; overlapped they
  // leave (5, 3), which is not.
  lemma OverlapOverSuppresses()
    ensures var s := Saved(map["rg" := Counts(5, 2)], ["known"]);
      var a, b := Call("rg", "new"), Call("rg", "known");
      var kept, full := CountsOf(Overlapped(s, a, b).classes, "rg"), CountsOf(Sequential(s, a, b).classes, "rg");
      && kept == Counts(5, 3) && full == Counts(6, 3)
      && ShouldFullPass(kept, 0.4) && !ShouldFullPass(full, 0.4)
  {
    assert |"new"| != |"known"|;
    PassMeans(Counts(5, 3), 0.4);
    PassMeans(Counts(6, 3), 0.4);
  }
}
