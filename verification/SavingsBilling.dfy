// Billing arithmetic of cmd/slimference/savings_cmd.go: discounts on cache reads,
// billed tokens and scorecards. A price ratio is a real; IEEE rounding is not modelled.
module SavingsBilling {
  import opened Basics
  import opened SavingsRecords

  // What a cache read of so many tokens is worth, rounded down.
  function Discount(tokens: int, ratio: real): int {
    if tokens <= 0 then 0 else Scaled(tokens, 1.0 - Clamp01(ratio))
  }

  function Scaled(tokens: int, factor: real): int {
    (tokens as real * factor).Floor
  }

  function InputEquivalent(provider: int, fallback: int): int {
    if provider > 0 then provider else if fallback > 0 then fallback else 0
  }

  function CacheAwareBilled(input: int, read: int, create: int, ratio: real): int {
    var tokens := if input < 0 then 0 else input;
    var effective := tokens - Discount(Min(read, tokens), ratio) + create;
    if effective < 0 then 0 else effective
  }

  function EffectiveBilled(provider: int, fallback: int, read: int, create: int, negative: int, ratio: real): int {
    var chosen := if provider <= 0 then fallback else provider;
    var input := if chosen <= 0 then 0 else chosen;
    var effective := input - Discount(Min(read, input), ratio) + create + negative;
    if effective < 0 then 0 else effective
  }

  function Rate(numerator: int, denominator: int): real {
    if denominator <= 0 then 0.0 else numerator as real / denominator as real
  }

  datatype Scorecard = Scorecard(
    counterfactual: int, uncached: int, effective: int, compounded: int,
    sLocal: real, sCombined: real, sVsUncached: real)

  function BuildScorecard(provider: int, fallback: int, localSaved: int, read: int, create: int, negative: int,
                          ratio: real): Scorecard
  {
    var without := Max(InputEquivalent(provider, fallback) + localSaved, 0);
    var effective := EffectiveBilled(provider, fallback, read, create, negative, ratio);
    var counterfactual := CacheAwareBilled(without, read, create, ratio);
    Scorecard(counterfactual, without, effective, 0,
              Rate(localSaved, without),
              Rate(counterfactual - effective, counterfactual),
              Rate(without - effective, without))
  }

  // ---- floors of discounts ----

  lemma Shrinks(d: real, r: real)
    requires 0.0 <= d && 0.0 <= r <= 1.0
    ensures 0.0 <= d * r <= d
  {
    assert d * (1.0 - r) >= 0.0;
  }

  lemma ProductGrows(a: real, b: real, d: real, r: real)
    requires b == a + d && 0.0 <= d && 0.0 <= r <= 1.0
    ensures a * r <= b * r <= a * r + d
  {
    Shrinks(d, r);
    var p, q := a * r, d * r;
    assert b * r == (a + d) * r == p + q;
  }

  lemma FloorStep(a: real, b: real, n: int)
    requires a <= b <= a + n as real
    ensures a.Floor <= b.Floor <= a.Floor + n
  {
    assert (a + n as real).Floor == a.Floor + n;
  }

  lemma ScaledGrows(x: int, y: int, r: real)
    requires x <= y && 0.0 <= r <= 1.0
    ensures Scaled(x, r) <= Scaled(y, r) <= Scaled(x, r) + (y - x)
  {
    ProductGrows(x as real, y as real, (y - x) as real, r);
    FloorStep(x as real * r, y as real * r, y - x);
  }

  lemma ScaledAdds(x: int, y: int, r: real)
    ensures Scaled(x, r) + Scaled(y, r) <= Scaled(x + y, r)
  {
    assert (x + y) as real * r == x as real * r + y as real * r;
  }

  // Discounts grow with the tokens, but never faster than the tokens do.
  lemma DiscountGrows(x: int, y: int, ratio: real)
    requires 0 <= x <= y
    ensures 0 <= Discount(x, ratio) <= Discount(y, ratio) <= Discount(x, ratio) + (y - x)
  {
    ScaledGrows(0, x, 1.0 - Clamp01(ratio));
    ScaledGrows(x, y, 1.0 - Clamp01(ratio));
  }

  lemma DiscountBounds(x: int, ratio: real)
    ensures 0 <= Discount(x, ratio) <= Max(x, 0)
  {
    DiscountGrows(0, Max(x, 0), ratio);
  }

  lemma DiscountSuperadditive(x: int, y: int, ratio: real)
    requires x >= 0 && y >= 0
    ensures Discount(x, ratio) + Discount(y, ratio) <= Discount(x + y, ratio)
  {
    ScaledAdds(x, y, 1.0 - Clamp01(ratio));
  }

  // ---- what is charged ----

  lemma FloorLeft(x: real, n: int)
    ensures var kept := (n - x.Floor) as real; n as real - x <= kept < n as real - x + 1.0
  {
  }

  // What the discount leaves of a cache read is its price, rounded up.
  lemma DiscountPrice(tokens: nat, ratio: real, price: real)
    requires IsPrice(ratio, price)
    ensures tokens as real * price <= (tokens - Discount(tokens, ratio)) as real < tokens as real * price + 1.0
  {
    FloorLeft(tokens as real * (1.0 - price), tokens);
    assert tokens as real * (1.0 - price) == tokens as real - tokens as real * price;
  }

  // What is billed as input: what the provider reports, or else the tokens sent.
  predicate IsInput(provider: int, fallback: int, input: int) {
    && (provider > 0 ==> input == provider)
    && (provider <= 0 < fallback ==> input == fallback)
    && (provider <= 0 && fallback <= 0 ==> input == 0)
  }

  // The part of it that was read from the cache.
  predicate IsCached(input: int, read: int, cached: int) {
    && (read <= 0 ==> cached == 0)
    && (0 < read <= input ==> cached == read)
    && (0 <= input < read ==> cached == input)
  }

  // n is the charge rounded up, and nothing below zero is charged.
  predicate RoundsUp(charge: real, n: int) {
    n >= 0 && (charge >= 0.0 ==> charge <= n as real < charge + 1.0) && (charge < 0.0 ==> n == 0)
  }

  // Uncached input in full, cached input at the ratio, creates and penalties in full.
  lemma EffectivePrice(b: Bill, ratio: real, price: real, input: int, cached: int)
    requires IsPrice(ratio, price) && IsInput(b.provider, b.fallback, input) && IsCached(input, b.read, cached)
    ensures RoundsUp((input - cached) as real + cached as real * price + (b.create + b.negative) as real,
                     Billed(b, ratio))
  {
    DiscountPrice(cached, ratio, price);
    DiscountBounds(Min(b.read, input), ratio);
  }

  // The counterfactual is charged the same way for the input without local savings, and
  // without penalties.
  lemma CounterfactualPrice(b: Bill, localSaved: int, ratio: real, price: real, input: int, without: int, cached: int)
    requires IsPrice(ratio, price) && IsInput(b.provider, b.fallback, input)
    requires (input + localSaved >= 0 ==> without == input + localSaved) && (input + localSaved < 0 ==> without == 0)
    requires IsCached(without, b.read, cached)
    ensures var s := BuildScorecard(b.provider, b.fallback, localSaved, b.read, b.create, b.negative, ratio);
      s.uncached == without
      && RoundsUp((without - cached) as real + cached as real * price + b.create as real, s.counterfactual)
  {
    DiscountPrice(cached, ratio, price);
    DiscountBounds(Min(b.read, without), ratio);
  }

  lemma RateMeans(n: int, d: int)
    ensures d > 0 ==> Rate(n, d) * d as real == n as real
    ensures d <= 0 ==> Rate(n, d) == 0.0
  {
  }

  // The rates are parts of the uncached input and of the counterfactual.
  lemma RatesMean(provider: int, fallback: int, localSaved: int, read: int, create: int, negative: int, ratio: real)
    ensures var s := BuildScorecard(provider, fallback, localSaved, read, create, negative, ratio);
      && (s.uncached > 0 ==> s.sLocal * s.uncached as real == localSaved as real)
      && (s.uncached > 0 ==> s.sVsUncached * s.uncached as real == (s.uncached - s.effective) as real)
      && (s.counterfactual > 0 ==>
            s.sCombined * s.counterfactual as real == (s.counterfactual - s.effective) as real)
      && (s.uncached <= 0 ==> s.sLocal == s.sVsUncached == 0.0) && (s.counterfactual <= 0 ==> s.sCombined == 0.0)
      && s.effective == Billed(Bill(provider, fallback, read, create, negative), ratio) && s.compounded == 0
  {
    hide Rate, EffectiveBilled, CacheAwareBilled;
    var s := BuildScorecard(provider, fallback, localSaved, read, create, negative, ratio);
    RateMeans(localSaved, s.uncached);
    RateMeans(s.uncached - s.effective, s.uncached);
    RateMeans(s.counterfactual - s.effective, s.counterfactual);
  }

  // Input left to bill once the cache reads are discounted.
  function Net(input: int, read: int, ratio: real): int {
    input - Discount(Min(read, input), ratio)
  }

  // More input never makes the bill smaller, at any amount of cache reads.
  lemma BillMonotone(x: int, y: int, read: int, ratio: real)
    requires 0 <= x <= y
    ensures 0 <= Net(x, read, ratio) <= Net(y, read, ratio)
  {
    DiscountBounds(Min(read, x), ratio);
    if read > 0 {
      DiscountGrows(Min(read, x), Min(read, y), ratio);
    }
  }

  // ---- merging rows ----

  datatype Bill = Bill(provider: int, fallback: int, read: int, create: int, negative: int)

  function Billed(b: Bill, ratio: real): int {
    EffectiveBilled(b.provider, b.fallback, b.read, b.create, b.negative, ratio)
  }

  predicate Counts0(b: Bill) {
    b.provider >= 0 && b.fallback >= 0 && b.read >= 0
  }

  function Pool(a: Bill, b: Bill): Bill {
    Bill(a.provider + b.provider, a.fallback + b.fallback, a.read + b.read, a.create + b.create,
         a.negative + b.negative)
  }

  lemma NetSubadditive(ia: int, ib: int, ra: int, rb: int, ratio: real)
    requires ia >= 0 && ib >= 0 && ra >= 0 && rb >= 0
    ensures Net(ia + ib, ra + rb, ratio) <= Net(ia, ra, ratio) + Net(ib, rb, ratio)
    ensures Net(ia, ra + rb, ratio) <= Net(ia, ra, ratio)
  {
    var da, db := Min(ra, ia), Min(rb, ib);
    DiscountSuperadditive(da, db, ratio);
    DiscountGrows(da + db, Min(ra + rb, ia + ib), ratio);
    DiscountGrows(da, Min(ra + rb, ia), ratio);
  }

  lemma BilledIsNet(b: Bill, ratio: real)
    ensures Billed(b, ratio)
         == Max(Net(InputEquivalent(b.provider, b.fallback), b.read, ratio) + b.create + b.negative, 0)
  {
  }

  // A pooled row is billed at most what its parts are billed, even when only one
  // part has provider-reported input and whatever the creates and penalties are.
  lemma PoolingNeverBillsMore(a: Bill, b: Bill, ratio: real)
    requires Counts0(a) && Counts0(b)
    ensures Billed(Pool(a, b), ratio) <= Billed(a, ratio) + Billed(b, ratio)
  {
    hide Net, Billed;
    var ia, ib := InputEquivalent(a.provider, a.fallback), InputEquivalent(b.provider, b.fallback);
    BilledIsNet(a, ratio);
    BilledIsNet(b, ratio);
    BilledIsNet(Pool(a, b), ratio);
    NetSubadditive(ia, ib, a.read, b.read, ratio);
    NetSubadditive(ib, ia, b.read, a.read, ratio);
    BillMonotone(0, ia, a.read, ratio);
    BillMonotone(0, ib, b.read, ratio);
  }

  function PoolAll(bills: seq<Bill>): Bill {
    if bills == [] then Bill(0, 0, 0, 0, 0) else Pool(PoolAll(bills[..|bills| - 1]), bills[|bills| - 1])
  }

  function SumBilled(bills: seq<Bill>, ratio: real): int {
    if bills == [] then 0 else SumBilled(bills[..|bills| - 1], ratio) + Billed(bills[|bills| - 1], ratio)
  }

  // A sum of bills is never below the bill of everything pooled.
  lemma {:induction false} SumCoversPool(bills: seq<Bill>, ratio: real)
    requires forall b :: b in bills ==> Counts0(b)
    ensures Counts0(PoolAll(bills))
    ensures Billed(PoolAll(bills), ratio) <= SumBilled(bills, ratio)
  {
    if bills != [] {
      var init, last := bills[..|bills| - 1], bills[|bills| - 1];
      SumCoversPool(init, ratio);
      PoolingNeverBillsMore(PoolAll(init), last, ratio);
    }
  }

  // ---- scorecards ----

  lemma RateInUnit(n: int, d: int)
    requires 0 <= n <= d
    ensures 0.0 <= Rate(n, d) <= 1.0
  {
    if d > 0 {
      assert n as real / d as real <= d as real / d as real;
    }
  }

  // With local savings, creates and reads not negative, the counterfactual sits between
  // the effective bill (less the penalty for negative events) and the uncached input.
  lemma ScorecardBounds(provider: int, fallback: int, localSaved: int, read: int, create: int, negative: int,
                        ratio: real)
    requires localSaved >= 0 && create >= 0 && negative >= 0
    ensures var s := BuildScorecard(provider, fallback, localSaved, read, create, negative, ratio);
      && 0 <= s.effective <= s.counterfactual + negative
      && s.counterfactual <= s.uncached + create
      && (negative == 0 ==> 0.0 <= s.sCombined <= 1.0)
  {
    var input := InputEquivalent(provider, fallback);
    var s := BuildScorecard(provider, fallback, localSaved, read, create, negative, ratio);
    var without := input + localSaved;
    BillMonotone(input, without, read, ratio);
    DiscountBounds(Min(read, input), ratio);
    DiscountBounds(Min(read, without), ratio);
    if negative == 0 {
      RateInUnit(s.counterfactual - s.effective, s.counterfactual);
    }
  }

  lemma RateOrder(a: int, b: int, d: int)
    requires d > 0
    ensures Rate(a, d) >= Rate(b, d) <==> a >= b
  {
    if a >= b {
      assert a as real / d as real >= b as real / d as real;
    } else {
      assert (b - a) as real / d as real > 0.0;
      assert b as real / d as real - a as real / d as real == (b - a) as real / d as real;
    }
  }

  // Caching pays on top of local savings exactly when what is saved on the cached part
  // covers what creating the cache and the negative events cost.
  lemma CachingPaysIff(provider: int, fallback: int, localSaved: int, read: int, create: int, negative: int,
                       ratio: real, price: real, cached: int)
    requires localSaved >= 0 && create >= 0 && negative >= 0 && IsPrice(ratio, price)
    requires InputEquivalent(provider, fallback) + localSaved > 0
    requires IsCached(InputEquivalent(provider, fallback), read, cached)
    ensures var s := BuildScorecard(provider, fallback, localSaved, read, create, negative, ratio);
      s.sVsUncached >= s.sLocal <==> (create + negative) as real <= cached as real - cached as real * price
  {
    var input := InputEquivalent(provider, fallback);
    var s := BuildScorecard(provider, fallback, localSaved, read, create, negative, ratio);
    DiscountBounds(Min(read, input), ratio);
    DiscountPrice(cached, ratio, price);
    RateOrder(s.uncached - s.effective, localSaved, s.uncached);
    assert s.sVsUncached >= s.sLocal <==> create + negative <= Discount(cached, ratio);
  }
}
