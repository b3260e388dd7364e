// The median of the positive values of a list (medianPositiveSavingsInt in
// cmd/slimference/savings_cmd.go).
module Medians {

  function Positives(values: seq<int>): seq<int> {
    if values == [] then []
    else
      var rest := Positives(values[..|values| - 1]);
      var last := values[|values| - 1];
      if last > 0 then rest + [last] else rest
  }

  lemma {:induction false} PositivesFrom(values: seq<int>)
    ensures forall x :: x in Positives(values) ==> x > 0 && x in values
  {
    if values != [] {
      PositivesFrom(values[..|values| - 1]);
    }
  }

  ghost predicate Sorted(s: seq<int>) {
    forall i, j :: 0 <= i < j < |s| ==> s[i] <= s[j]
  }

  function Insert(s: seq<int>, x: int): (r: seq<int>)
    ensures multiset(r) == multiset(s) + multiset{x}
  {
    if s == [] || x <= s[0] then
      [x] + s
    else
      assert s == [s[0]] + s[1..];
      [s[0]] + Insert(s[1..], x)
  }

  lemma {:induction false} InsertSorted(s: seq<int>, x: int)
    requires Sorted(s)
    ensures Sorted(Insert(s, x))
  {
    if s != [] && x > s[0] {
      InsertSorted(s[1..], x);
      var rest := Insert(s[1..], x);
      forall i | 0 <= i < |rest|
        ensures s[0] <= rest[i]
      {
        assert rest[i] in multiset(s[1..]) + multiset{x};
      }
    }
  }

  // Stands for sort.Ints.
  function SortInts(s: seq<int>): (r: seq<int>)
    ensures Sorted(r) && multiset(r) == multiset(s)
  {
    if s == [] then []
    else
      var init := s[..|s| - 1];
      assert s == init + [s[|s| - 1]];
      InsertSorted(SortInts(init), s[|s| - 1]);
      Insert(SortInts(init), s[|s| - 1])
  }

  lemma SameLength(a: seq<int>, b: seq<int>)
    requires multiset(a) == multiset(b)
    ensures |a| == |b|
  {
    assert |multiset(a)| == |multiset(b)|;
  }

  function Middle(sorted: seq<int>): int
    requires sorted != []
  {
    var mid := |sorted| / 2;
    if |sorted| % 2 == 1 then sorted[mid] else (sorted[mid - 1] + sorted[mid]) / 2
  }

  function Median(values: seq<int>): int {
    var positive := Positives(values);
    if positive == [] then 0
    else
      SameLength(positive, SortInts(positive));
      Middle(SortInts(positive))
  }

  lemma {:induction false} PositivesCount(values: seq<int>, x: int)
    ensures multiset(Positives(values))[x] == if x > 0 then multiset(values)[x] else 0
  {
    if values != [] {
      var init, last := values[..|values| - 1], values[|values| - 1];
      PositivesCount(init, x);
      assert values == init + [last];
    }
  }

  // Of the positive values in order, the middle one, or the mean of the two rounded down.
  lemma MedianIs(values: seq<int>, s: seq<int>)
    requires Sorted(s) && multiset(s) == multiset(Positives(values))
    ensures s == [] ==> Median(values) == 0
    ensures |s| % 2 == 1 ==> Median(values) == s[|s| / 2]
    ensures s != [] && |s| % 2 == 0 ==>
      var twice := s[|s| / 2 - 1] + s[|s| / 2]; 2 * Median(values) <= twice <= 2 * Median(values) + 1
  {
    var positive := Positives(values);
    SameLength(positive, s);
    SortedPermutation(SortInts(positive), s);
    hide SortInts, Positives, Sorted, Middle;
    if s != [] {
      MiddleIs(s);
    }
  }

  lemma MiddleIs(s: seq<int>)
    requires s != []
    ensures |s| % 2 == 1 ==> Middle(s) == s[|s| / 2]
    ensures |s| % 2 == 0 ==>
      var twice := s[|s| / 2 - 1] + s[|s| / 2]; 2 * Middle(s) <= twice <= 2 * Middle(s) + 1
  {
  }

  method MedianPositive(values: seq<int>) returns (median: int)
    ensures median == Median(values)
  {
    var positive := [];
    for i := 0 to |values|
      invariant positive == Positives(values[..i])
    {
      assert values[..i + 1][..i] == values[..i];
      if values[i] > 0 {
        positive := positive + [values[i]];
      }
    }
    assert values[..|values|] == values;
    if |positive| == 0 {
      return 0;
    }
    var sorted := SortInts(positive);
    SameLength(positive, sorted);
    return Middle(sorted);
  }

  ghost function Count(s: seq<int>, p: int -> bool): nat {
    if s == [] then 0 else (if p(s[0]) then 1 else 0) + Count(s[1..], p)
  }

  function Below(m: int): int -> bool { x => x < m }

  function Above(m: int): int -> bool { x => x > m }

  function Without(s: seq<int>, k: nat): (r: seq<int>)
    requires k < |s|
    ensures |r| == |s| - 1
  {
    Front(s, k) + Back(s, k)
  }

  function Front(s: seq<int>, k: nat): seq<int>
    requires k < |s|
  {
    s[..k]
  }

  function Back(s: seq<int>, k: nat): seq<int>
    requires k < |s|
  {
    s[k + 1..]
  }

  lemma Whole(s: seq<int>, k: nat)
    requires k < |s|
    ensures s == Front(s, k) + ([s[k]] + Back(s, k))
  {
  }

  lemma {:induction false} CountRemove(s: seq<int>, k: nat, p: int -> bool)
    requires k < |s|
    ensures Count(s, p) == (if p(s[k]) then 1 else 0) + Count(Without(s, k), p)
  {
    if k == 0 {
      assert Without(s, 0) == s[1..];
    } else {
      CountRemove(s[1..], k - 1, p);
      assert Without(s, k)[1..] == Without(s[1..], k - 1);
    }
  }

  function IndexOf(s: seq<int>, x: int): (k: nat)
    requires x in s
    ensures k < |s| && s[k] == x
  {
    if s[0] == x then 0 else 1 + IndexOf(s[1..], x)
  }

  lemma RemoveBoth(a: seq<int>, b: seq<int>, k: nat)
    requires a != [] && multiset(a) == multiset(b) && k < |b| && b[k] == a[0]
    ensures multiset(Without(a, 0)) == multiset(Without(b, k))
  {
    assert a == [a[0]] + a[1..];
    assert b == b[..k] + [b[k]] + b[k + 1..];
    assert multiset(a) - multiset{a[0]} == multiset(Without(a, 0));
    assert multiset(b) - multiset{b[k]} == multiset(Without(b, k));
  }

  lemma {:induction false} CountPermutation(a: seq<int>, b: seq<int>, p: int -> bool)
    requires multiset(a) == multiset(b)
    ensures Count(a, p) == Count(b, p)
    decreases |a|
  {
    SameLength(a, b);
    if a != [] {
      assert a[0] in multiset(b);
      var k := IndexOf(b, a[0]);
      RemoveBoth(a, b, k);
      CountPermutation(Without(a, 0), Without(b, k), p);
      CountRemove(a, 0, p);
      CountRemove(b, k, p);
    }
  }

  lemma {:induction false} SortedPermutation(a: seq<int>, b: seq<int>)
    requires Sorted(a) && Sorted(b) && multiset(a) == multiset(b)
    ensures a == b
  {
    SameLength(a, b);
    if a != [] {
      LeastFirst(a, b);
      LeastFirst(b, a);
      RemoveBoth(a, b, 0);
      assert Without(a, 0) == a[1..] && Without(b, 0) == b[1..];
      SortedPermutation(a[1..], b[1..]);
    }
  }

  lemma LeastFirst(a: seq<int>, b: seq<int>)
    requires Sorted(a) && a != [] && b != [] && multiset(a) == multiset(b)
    ensures a[0] <= b[0]
  {
    assert b[0] in multiset(a);
    var k := IndexOf(a, b[0]);
  }

  lemma {:induction false} PositivesAppend(a: seq<int>, b: seq<int>)
    ensures Positives(a + b) == Positives(a) + Positives(b)
  {
    if b == [] {
      assert a + b == a;
    } else {
      assert (a + b)[..|a + b| - 1] == a + b[..|b| - 1];
      PositivesAppend(a, b[..|b| - 1]);
    }
  }

  lemma PositivesSplit(front: seq<int>, x: int, back: seq<int>)
    ensures multiset(Positives(front + ([x] + back))) ==
      multiset(Positives([x])) + multiset(Positives(front + back))
  {
    PositivesAppend(front, [x] + back);
    PositivesAppend([x], back);
    PositivesAppend(front, back);
    Shuffle(Positives(front), Positives([x]), Positives(back));
  }

  lemma PositivesRemove(s: seq<int>, k: nat, x: int)
    requires k < |s| && s[k] == x
    ensures multiset(Positives(s)) == multiset(Positives([x])) + multiset(Positives(Without(s, k)))
  {
    Whole(s, k);
    PositivesSplit(Front(s, k), x, Back(s, k));
  }

  lemma Shuffle(a: seq<int>, b: seq<int>, c: seq<int>)
    ensures multiset(a + (b + c)) == multiset(b) + multiset(a + c)
  {
  }

  lemma {:induction false} PositivesPermutation(a: seq<int>, b: seq<int>)
    requires multiset(a) == multiset(b)
    ensures multiset(Positives(a)) == multiset(Positives(b))
    decreases |a|
  {
    SameLength(a, b);
    if a != [] {
      assert a[0] in multiset(b);
      var k := IndexOf(b, a[0]);
      RemoveBoth(a, b, k);
      PositivesPermutation(Without(a, 0), Without(b, k));
      PositivesRemove(a, 0, a[0]);
      PositivesRemove(b, k, a[0]);
    }
  }

  // The charge does not depend on the order in which the deltas were seen.
  lemma MedianPermutation(a: seq<int>, b: seq<int>)
    requires multiset(a) == multiset(b)
    ensures Median(a) == Median(b)
  {
    PositivesPermutation(a, b);
    SameLength(Positives(a), Positives(b));
    SortedPermutation(SortInts(Positives(a)), SortInts(Positives(b)));
  }

  lemma {:induction false} CountBound(s: seq<int>, p: int -> bool, k: nat)
    requires k <= |s|
    requires forall i :: k <= i < |s| ==> !p(s[i])
    ensures Count(s, p) <= k
  {
    if s != [] {
      CountBound(s[1..], p, if k == 0 then 0 else k - 1);
    }
  }

  lemma {:induction false} CountBoundFrom(s: seq<int>, p: int -> bool, k: nat)
    requires k <= |s|
    requires forall i :: 0 <= i < k ==> !p(s[i])
    ensures Count(s, p) <= |s| - k
  {
    if s != [] {
      CountBoundFrom(s[1..], p, if k == 0 then 0 else k - 1);
    }
  }

  lemma {:induction false} MiddleBounds(s: seq<int>)
    requires Sorted(s) && s != [] && s[0] > 0
    ensures 0 < s[0] <= Middle(s) <= s[|s| - 1]
    ensures 2 * Count(s, Below(Middle(s))) <= |s| && 2 * Count(s, Above(Middle(s))) <= |s|
  {
    var m := Middle(s);
    var mid := |s| / 2;
    if |s| % 2 == 0 {
      assert s[mid - 1] <= s[mid];
    }
    CountBound(s, Below(m), mid);
    CountBoundFrom(s, Above(m), |s| - mid);
  }

  // It really is a median: at most half of the positive values lie strictly on
  // either side of it.
  lemma MedianBalances(values: seq<int>, m: int)
    requires Positives(values) != [] && m == Median(values)
    ensures 2 * Count(Positives(values), Below(m)) <= |Positives(values)|
    ensures 2 * Count(Positives(values), Above(m)) <= |Positives(values)|
  {
    var v := Positives(values);
    var s := SortInts(v);
    SameLength(v, s);
    PositivesFrom(values);
    assert |s| > 0 && s[0] in multiset(v) && s[0] in v;
    MiddleBounds(s);
    CountPermutation(v, s, Below(m));
    CountPermutation(v, s, Above(m));
  }

  // And it lies between two of them.
  lemma MedianBetween(values: seq<int>) returns (lo: int, hi: int)
    requires Positives(values) != []
    ensures lo in values && hi in values && 0 < lo <= Median(values) <= hi
  {
    var s := SortInts(Positives(values));
    SameLength(Positives(values), s);
    PositivesFrom(values);
    assert |s| > 0;
    lo, hi := s[0], s[|s| - 1];
    assert lo in multiset(s) && hi in multiset(s);
    assert lo in multiset(Positives(values)) && hi in multiset(Positives(values));
    assert lo in Positives(values) && hi in Positives(values);
    MiddleBounds(s);
  }
}
