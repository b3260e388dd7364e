// Environments as lists of KEY=value entries, read with the last entry winning
// (cmd/slimference/command_output_first.go and codex_desktop_app_server_shim.go).
module EnvLists {
  import opened Strs

  // The key before the first '=', if there is one.
  function KeyOf(entry: string): Option<string> {
    var k := Find(entry, '=', 0);
    if k == |entry| then None else Some(entry[..k])
  }

  predicate IsKey(key: string) {
    forall i :: 0 <= i < |key| ==> key[i] != '='
  }

  function ValueOf(entry: string): string
    requires KeyOf(entry).Some?
  {
    entry[Find(entry, '=', 0) + 1..]
  }

  // What a process finds under the key.
  function Lookup(env: seq<string>, key: string): Option<string> {
    if env == [] then None
    else
      var last := env[|env| - 1];
      if KeyOf(last) == Some(key) then Some(ValueOf(last)) else Lookup(env[..|env| - 1], key)
  }

  lemma PrefixIsKey(entry: string, key: string)
    requires IsKey(key)
    ensures key + "=" <= entry <==> KeyOf(entry) == Some(key)
    ensures key + "=" <= entry ==> ValueOf(entry) == entry[|key| + 1..]
  {
    var k := Find(entry, '=', 0);
    if key + "=" <= entry {
      assert entry[|key|] == (key + "=")[|key|] == '=';
      forall i | 0 <= i < |key| ensures entry[i] == key[i] {
        assert entry[i] == (key + "=")[i];
      }
      assert k == |key|;
      assert entry[..k] == key;
    }
    if KeyOf(entry) == Some(key) {
      assert entry[..k] == key && entry[k] == '=';
      assert entry[..k + 1] == key + "=";
    }
  }

  method EnvValue(env: seq<string>, key: string) returns (value: string)
    requires IsKey(key)
    ensures value == if Lookup(env, key).Some? then Lookup(env, key).value else ""
  {
    hide KeyOf, ValueOf, IsKey;
    var prefix := key + "=";
    var i := |env|;
    assert env[..i] == env;
    while i > 0
      invariant 0 <= i <= |env|
      invariant Lookup(env, key) == Lookup(env[..i], key)
    {
      i := i - 1;
      PrefixIsKey(env[i], key);
      assert env[..i + 1][..i] == env[..i];
      if prefix <= env[i] {
        return env[i][|prefix|..];
      }
    }
    return "";
  }

  // ---- overriding ----

  // Where the key is found from the end, or -1.
  function LastIndex(env: seq<string>, key: string): (i: int)
    ensures -1 <= i < |env|
    ensures i >= 0 ==> KeyOf(env[i]) == Some(key)
    ensures forall j :: i < j < |env| ==> KeyOf(env[j]) != Some(key)
  {
    if env == [] then -1
    else if KeyOf(env[|env| - 1]) == Some(key) then |env| - 1
    else LastIndex(env[..|env| - 1], key)
  }

  function Override(env: seq<string>, entry: string): seq<string> {
    var k := KeyOf(entry);
    if k.None? then env + [entry]
    else
      var i := LastIndex(env, k.value);
      if i >= 0 then env[i := entry] else env + [entry]
  }

  function Upsert(env: seq<string>, overrides: seq<string>): (r: seq<string>)
    ensures |r| >= |env|
  {
    if overrides == [] then env
    else Override(Upsert(env, overrides[..|overrides| - 1]), overrides[|overrides| - 1])
  }

  lemma LastIndexIs(env: seq<string>, key: string, i: int)
    requires -1 <= i < |env| && (i >= 0 ==> KeyOf(env[i]) == Some(key))
    requires forall j :: i < j < |env| ==> KeyOf(env[j]) != Some(key)
    ensures LastIndex(env, key) == i
  {
  }

  lemma {:induction false} LookupAt(env: seq<string>, key: string)
    ensures var i := LastIndex(env, key);
      Lookup(env, key) == if i >= 0 then Some(ValueOf(env[i])) else None
  {
    hide KeyOf, ValueOf;
    if env != [] && KeyOf(env[|env| - 1]) != Some(key) {
      LookupAt(env[..|env| - 1], key);
    }
  }

  lemma OverrideLooksUp(env: seq<string>, entry: string, key: string)
    ensures Lookup(Override(env, entry), key)
         == if KeyOf(entry) == Some(key) then Some(ValueOf(entry)) else Lookup(env, key)
  {
    hide KeyOf, ValueOf, Lookup;
    var r := Override(env, entry);
    var i, n := LastIndex(env, key), |env|;
    LookupAt(env, key);
    LookupAt(r, key);
    if |r| > n {
      assert r == env + [entry];
      LastIndexIs(r, key, if KeyOf(entry) == Some(key) then n else i);
    } else {
      LastIndexIs(r, key, i);
    }
  }

  // The first list's value, or else the second's.
  function Merged(overrides: seq<string>, env: seq<string>, key: string): Option<string> {
    if Lookup(overrides, key).Some? then Lookup(overrides, key) else Lookup(env, key)
  }

  // Overriding is map override: an override's last value if it has the key, else the
  // environment's value.
  lemma {:induction false} UpsertLooksUp(env: seq<string>, overrides: seq<string>, key: string)
    ensures Lookup(Upsert(env, overrides), key) == Merged(overrides, env, key)
  {
    hide KeyOf, ValueOf, Override;
    if overrides != [] {
      var n := |overrides| - 1;
      UpsertLooksUp(env, overrides[..n], key);
      OverrideLooksUp(Upsert(env, overrides[..n]), overrides[n], key);
    }
  }

  predicate Has(entries: seq<string>, key: string) {
    exists j :: 0 <= j < |entries| && KeyOf(entries[j]) == Some(key)
  }

  // An entry is replaced only where it is the last one of an overridden key, and by an
  // entry of that key; everything else stays in place.
  lemma {:induction false} UpsertFrames(env: seq<string>, overrides: seq<string>, i: nat)
    requires i < |env|
    ensures var r := Upsert(env, overrides);
      r[i] == env[i] || (exists key ::
        i == LastIndex(env, key) && Has(overrides, key) && KeyOf(r[i]) == Some(key))
    ensures KeyOf(Upsert(env, overrides)[i]) == KeyOf(env[i])
  {
    hide KeyOf, Lookup;
    if overrides != [] {
      var n := |overrides| - 1;
      var rest, last := overrides[..n], overrides[n];
      var r := Upsert(env, rest);
      UpsertFrames(env, rest, i);
      assert forall key :: Has(rest, key) ==> Has(overrides, key) by {
        forall key | Has(rest, key) ensures Has(overrides, key) {
          var j :| 0 <= j < |rest| && KeyOf(rest[j]) == Some(key);
          assert KeyOf(overrides[j]) == Some(key);
        }
      }
      if Override(r, last)[i] != r[i] {
        var key := KeyOf(last).value;
        assert Has(overrides, key);
        LastKept(env, rest, key);
      }
    }
  }

  // Keys stay where they are, so the last place of a key in the old part is kept if
  // nothing was added under it.
  lemma {:induction false} LastKept(env: seq<string>, overrides: seq<string>, key: string)
    ensures LastIndex(env, key) >= 0 ==> LastIndex(Upsert(env, overrides), key) == LastIndex(env, key)
    ensures LastIndex(Upsert(env, overrides), key) < |env| ==>
      LastIndex(Upsert(env, overrides), key) == LastIndex(env, key)
  {
    hide KeyOf;
    if overrides != [] {
      var n := |overrides| - 1;
      var r, last := Upsert(env, overrides[..n]), overrides[n];
      LastKept(env, overrides[..n], key);
      var i, m := LastIndex(r, key), |r|;
      var s := Override(r, last);
      if |s| > m {
        LastIndexIs(s, key, if KeyOf(last) == Some(key) then m else i);
      } else {
        LastIndexIs(s, key, i);
      }
    }
  }

  // The index holds the last place of every key.
  ghost predicate Indexed(idx: map<string, nat>, env: seq<string>) {
    forall k :: (k in idx <==> LastIndex(env, k) >= 0) && (k in idx ==> idx[k] == LastIndex(env, k))
  }

  lemma IndexedMore(idx: map<string, nat>, env: seq<string>, entry: string)
    requires Indexed(idx, env)
    ensures var k := KeyOf(entry);
      Indexed(if k.Some? then idx[k.value := |env|] else idx, env + [entry])
  {
    hide KeyOf;
    var all := env + [entry];
    assert all[..|env|] == env;
    var now := if KeyOf(entry).Some? then idx[KeyOf(entry).value := |env|] else idx;
    forall k ensures (k in now <==> LastIndex(all, k) >= 0) && (k in now ==> now[k] == LastIndex(all, k)) {
      assert LastIndex(all, k) == if KeyOf(entry) == Some(k) then |env| else LastIndex(env, k);
    }
  }

  lemma IndexedOver(idx: map<string, nat>, env: seq<string>, entry: string)
    requires Indexed(idx, env) && KeyOf(entry).Some? && KeyOf(entry).value in idx
    ensures idx[KeyOf(entry).value] < |env| && Override(env, entry) == env[idx[KeyOf(entry).value] := entry]
    ensures Indexed(idx, Override(env, entry))
  {
    hide KeyOf;
    IndexAfter(env, entry);
  }

  lemma OverrideAppends(idx: map<string, nat>, env: seq<string>, entry: string)
    requires Indexed(idx, env) && (KeyOf(entry).Some? ==> KeyOf(entry).value !in idx)
    ensures Override(env, entry) == env + [entry]
  {
    hide KeyOf;
  }

  method UpsertEnvAssignments(env: seq<string>, overrides: seq<string>) returns (out: seq<string>)
    ensures out == Upsert(env, overrides)
    ensures forall key :: Lookup(out, key) == Merged(overrides, env, key)
  {
    hide KeyOf, Lookup, Merged, Indexed, Override;
    out := env;
    var idx: map<string, nat> := map[];
    assert Indexed(idx, []) by { NoIndex(); }
    for i := 0 to |out|
      invariant Indexed(idx, out[..i])
    {
      IndexedMore(idx, out[..i], out[i]);
      assert out[..i] + [out[i]] == out[..i + 1];
      var k := KeyOf(out[i]);
      if k.Some? {
        idx := idx[k.value := i];
      }
    }
    assert out[..|out|] == out;
    for n := 0 to |overrides|
      invariant out == Upsert(env, overrides[..n])
      invariant Indexed(idx, out)
    {
      var entry := overrides[n];
      assert overrides[..n + 1][..n] == overrides[..n];
      var k := KeyOf(entry);
      if k.Some? && k.value in idx {
        IndexedOver(idx, out, entry);
        out := out[idx[k.value] := entry];
      } else {
        OverrideAppends(idx, out, entry);
        IndexedMore(idx, out, entry);
        if k.Some? {
          idx := idx[k.value := |out|];
        }
        out := out + [entry];
      }
    }
    assert overrides[..|overrides|] == overrides;
    forall key ensures Lookup(out, key) == Merged(overrides, env, key) {
      UpsertLooksUp(env, overrides, key);
    }
  }

  lemma NoIndex()
    ensures Indexed(map[], [])
  {
  }

  // Where a key is last after one more override.
  function NextIndex(env: seq<string>, entry: string, key: string): int {
    if KeyOf(entry) == Some(key) && LastIndex(env, key) < 0 then |env| else LastIndex(env, key)
  }

  lemma IndexAfter(env: seq<string>, entry: string)
    ensures forall key :: LastIndex(Override(env, entry), key) == NextIndex(env, entry, key)
  {
    forall key ensures LastIndex(Override(env, entry), key) == NextIndex(env, entry, key) {
      IndexNext(env, entry, key);
    }
  }

  lemma IndexNext(env: seq<string>, entry: string, key: string)
    ensures LastIndex(Override(env, entry), key) == NextIndex(env, entry, key)
  {
    hide KeyOf;
    LastIndexIs(Override(env, entry), key, NextIndex(env, entry, key));
  }
}
