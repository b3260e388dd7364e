// Sums over the values of a finite map, in no particular order.
module MapSums {

  ghost function Total<T>(m: map<string, T>, g: T -> int): int {
    if m == map[] then 0
    else
      var k :| k in m;
      g(m[k]) + Total(m - {k}, g)
  }

  // Any key may be split off first: the sum does not depend on the order.
  lemma {:induction false} TotalRemove<T>(m: map<string, T>, g: T -> int, k: string)
    requires k in m
    ensures Total(m, g) == g(m[k]) + Total(m - {k}, g)
    decreases |m|
  {
    var x :| x in m && Total(m, g) == g(m[x]) + Total(m - {x}, g);
    if x != k {
      TotalRemove(m - {x}, g, k);
      TotalRemove(m - {k}, g, x);
      assert m - {x} - {k} == m - {k} - {x};
    }
  }

  lemma TotalUpdate<T>(m: map<string, T>, g: T -> int, k: string, v: T)
    ensures Total(m[k := v], g) == Total(m - {k}, g) + g(v)
    ensures Total(m, g) == Total(m - {k}, g) + if k in m then g(m[k]) else 0
  {
    TotalRemove(m[k := v], g, k);
    assert m[k := v] - {k} == m - {k};
    if k in m {
      TotalRemove(m, g, k);
    } else {
      assert m - {k} == m;
    }
  }

  lemma {:induction false} TotalSame<T>(m: map<string, T>, n: map<string, T>, g: T -> int)
    requires m.Keys == n.Keys && forall k :: k in m ==> g(m[k]) == g(n[k])
    ensures Total(m, g) == Total(n, g)
    decreases |m|
  {
    if m == map[] {
      assert n == map[];
    } else {
      var k :| k in m;
      TotalRemove(m, g, k);
      TotalRemove(n, g, k);
      TotalSame(m - {k}, n - {k}, g);
    }
  }

  lemma {:induction false} TotalDifference<T>(m: map<string, T>, g: T -> int, h: T -> int, d: T -> int)
    requires forall k :: k in m ==> g(m[k]) == h(m[k]) - d(m[k])
    ensures Total(m, g) == Total(m, h) - Total(m, d)
    decreases |m|
  {
    if m != map[] {
      var k :| k in m;
      TotalRemove(m, g, k);
      TotalRemove(m, h, k);
      TotalRemove(m, d, k);
      TotalDifference(m - {k}, g, h, d);
    }
  }

  // Two tables with the same keys, and what each entry of the first has more.
  lemma {:induction false} TotalPlus<T, U>(m: map<string, T>, n: map<string, T>, extra: map<string, U>, g: T -> int,
                                           h: U -> int)
    requires m.Keys == n.Keys == extra.Keys && forall k :: k in m ==> g(m[k]) == g(n[k]) + h(extra[k])
    ensures Total(m, g) == Total(n, g) + Total(extra, h)
    decreases |m|
  {
    if m == map[] {
      assert n == map[] && extra == map[];
    } else {
      var k :| k in m;
      TotalRemove(m, g, k);
      TotalRemove(n, g, k);
      TotalRemove(extra, h, k);
      TotalPlus(m - {k}, n - {k}, extra - {k}, g, h);
    }
  }

  lemma {:induction false} TotalZero<T>(m: map<string, T>, g: T -> int)
    requires forall k :: k in m ==> g(m[k]) == 0
    ensures Total(m, g) == 0
    decreases |m|
  {
    if m != map[] {
      var k :| k in m && Total(m, g) == g(m[k]) + Total(m - {k}, g);
      TotalZero(m - {k}, g);
    }
  }

  lemma {:induction false} TotalNonNegative<T>(m: map<string, T>, g: T -> int)
    requires forall k :: k in m ==> g(m[k]) >= 0
    ensures Total(m, g) >= 0
    decreases |m|
  {
    if m != map[] {
      var k :| k in m && Total(m, g) == g(m[k]) + Total(m - {k}, g);
      TotalNonNegative(m - {k}, g);
    }
  }

  // ---- tallying keyed amounts into a map of rows ----

  function SumTo(amounts: seq<int>, n: nat): int
    requires n <= |amounts|
  {
    if n == 0 then 0 else SumTo(amounts, n - 1) + amounts[n - 1]
  }

  function SumFor(keys: seq<string>, amounts: seq<int>, n: nat, key: string): int
    requires n <= |amounts| == |keys|
  {
    if n == 0 then 0 else SumFor(keys, amounts, n - 1, key) + if keys[n - 1] == key then amounts[n - 1] else 0
  }

  function CountFor(keys: seq<string>, n: nat, key: string): nat
    requires n <= |keys|
  {
    if n == 0 then 0 else CountFor(keys, n - 1, key) + if keys[n - 1] == key then 1 else 0
  }

  // The map has a row for exactly the first n keys.
  ghost predicate KeyedBy<T>(keys: seq<string>, n: nat, m: map<string, T>)
    requires n <= |keys|
  {
    forall key :: key in m <==> key in keys[..n]
  }

  // Read through g, every row sums its key's amounts, and the rows together sum them all.
  ghost predicate Tallied<T>(keys: seq<string>, amounts: seq<int>, n: nat, m: map<string, T>, g: T -> int)
    requires n <= |amounts| == |keys|
  {
    (forall key :: key in m ==> g(m[key]) == SumFor(keys, amounts, n, key))
    && Total(m, g) == SumTo(amounts, n)
  }

  lemma {:induction false} UnusedKey(keys: seq<string>, amounts: seq<int>, n: nat, key: string)
    requires n <= |amounts| == |keys| && key !in keys[..n]
    ensures SumFor(keys, amounts, n, key) == 0
  {
    if n > 0 {
      assert keys[n - 1] == keys[..n][n - 1];
      assert forall k :: k in keys[..n - 1] ==> k in keys[..n];
      UnusedKey(keys, amounts, n - 1, key);
    }
  }

  lemma KeyStep<T>(keys: seq<string>, n: nat, m: map<string, T>, row: T)
    requires n < |keys| && KeyedBy(keys, n, m)
    ensures KeyedBy(keys, n + 1, m[keys[n] := row])
  {
    assert keys[..n + 1] == keys[..n] + [keys[n]];
  }

  lemma TallyStep<T>(keys: seq<string>, amounts: seq<int>, n: nat, m: map<string, T>, row: T, g: T -> int)
    requires n < |amounts| == |keys|
    requires KeyedBy(keys, n, m) && Tallied(keys, amounts, n, m, g)
    requires g(row) == (if keys[n] in m then g(m[keys[n]]) else 0) + amounts[n]
    ensures Tallied(keys, amounts, n + 1, m[keys[n] := row], g)
  {
    if keys[n] !in m {
      UnusedKey(keys, amounts, n, keys[n]);
    }
    TotalUpdate(m, g, keys[n], row);
  }

  function CountIn(m: map<string, int>, key: string): int {
    if key in m then m[key] else 0
  }

  ghost predicate KeysCounted(keys: seq<string>, n: nat, m: map<string, int>)
    requires n <= |keys|
  {
    forall key :: CountIn(m, key) == CountFor(keys, n, key)
  }

  lemma CountStep(keys: seq<string>, n: nat, m: map<string, int>)
    requires n < |keys| && KeysCounted(keys, n, m)
    ensures KeysCounted(keys, n + 1, m[keys[n] := CountIn(m, keys[n]) + 1])
    ensures CountFor(keys, n + 1, keys[n]) == CountIn(m, keys[n]) + 1
  {
    var next := m[keys[n] := CountIn(m, keys[n]) + 1];
    forall key
      ensures CountIn(next, key) == CountFor(keys, n + 1, key)
    {
      assert CountIn(m, key) == CountFor(keys, n, key);
    }
  }

  lemma TallyStart<T>(keys: seq<string>, amounts: seq<int>, g: T -> int)
    requires |amounts| == |keys|
    ensures KeyedBy<T>(keys, 0, map[]) && Tallied(keys, amounts, 0, map[], g)
  {
    assert keys[..0] == [];
  }

  method CountKeys(keys: seq<string>) returns (counts: map<string, int>)
    ensures KeysCounted(keys, |keys|, counts)
  {
    counts := map[];
    for i := 0 to |keys|
      invariant KeysCounted(keys, i, counts)
    {
      CountStep(keys, i, counts);
      counts := counts[keys[i] := CountIn(counts, keys[i]) + 1];
    }
  }

  lemma {:induction false} SumDifference(keys: seq<string>, a: seq<int>, b: seq<int>, d: seq<int>, n: nat)
    requires n <= |keys| == |a| == |b| == |d|
    requires forall i :: 0 <= i < |a| ==> a[i] == b[i] - d[i]
    ensures SumTo(a, n) == SumTo(b, n) - SumTo(d, n)
    ensures forall key :: SumFor(keys, a, n, key) == SumFor(keys, b, n, key) - SumFor(keys, d, n, key)
  {
    if n > 0 {
      SumDifference(keys, a, b, d, n - 1);
    }
  }

  lemma {:induction false} SumOnes(a: seq<int>, n: nat)
    requires n <= |a| && forall i :: 0 <= i < |a| ==> a[i] == 1
    ensures SumTo(a, n) == n
  {
    if n > 0 {
      SumOnes(a, n - 1);
    }
  }

  lemma {:induction false} SumForNonNegative(keys: seq<string>, amounts: seq<int>, n: nat, key: string)
    requires n <= |keys| == |amounts| && forall i :: 0 <= i < n ==> amounts[i] >= 0
    ensures SumFor(keys, amounts, n, key) >= 0
  {
    if n > 0 {
      SumForNonNegative(keys, amounts, n - 1, key);
    }
  }
}
