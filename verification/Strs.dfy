// String helpers shared by the models. A `char` stands for one byte of ASCII
// text or one rune; no Unicode normalisation or case folding beyond ASCII.
module Strs {

  datatype Option<+T> = None | Some(value: T)

  // The white space that Go's strings.TrimSpace removes.
  predicate IsSpace(c: char) {
    '\t' <= c <= '\r' || c == ' ' || c == '\U{0085}' || c == '\U{00A0}' || c == '\U{1680}'
    || '\U{2000}' <= c <= '\U{200A}' || c == '\U{2028}' || c == '\U{2029}' || c == '\U{202F}'
    || c == '\U{205F}' || c == '\U{3000}'
  }

  function TrimLeft(s: string): (r: string)
    ensures r == "" || !IsSpace(r[0])
  {
    if s != "" && IsSpace(s[0]) then TrimLeft(s[1..]) else s
  }

  function TrimRight(s: string): (r: string)
    ensures r <= s
    ensures r == "" || !IsSpace(r[|r| - 1])
  {
    if s != "" && IsSpace(s[|s| - 1]) then TrimRight(s[..|s| - 1]) else s
  }

  function TrimSpace(s: string): string {
    TrimRight(TrimLeft(s))
  }

  predicate Blank(s: string) {
    forall i :: 0 <= i < |s| ==> IsSpace(s[i])
  }

  lemma {:induction false} TrimLeftCuts(s: string) returns (cut: string)
    ensures s == cut + TrimLeft(s) && Blank(cut)
  {
    cut := "";
    if s != "" && IsSpace(s[0]) {
      var rest := TrimLeftCuts(s[1..]);
      cut := [s[0]] + rest;
    }
  }

  lemma {:induction false} TrimRightCuts(s: string) returns (cut: string)
    ensures s == TrimRight(s) + cut && Blank(cut)
  {
    cut := "";
    if s != "" && IsSpace(s[|s| - 1]) {
      var n := |s| - 1;
      var rest := TrimRightCuts(s[..n]);
      cut := rest + [s[n]];
      assert s == s[..n] + [s[n]] && s[..n] == TrimRight(s) + rest;
      assert (TrimRight(s) + rest) + [s[n]] == TrimRight(s) + cut;
    }
  }

  // What is trimmed is white space on either side, and all of it.
  lemma TrimMeans(s: string) returns (front: string, back: string)
    ensures var t := TrimSpace(s);
      && s == front + t + back && Blank(front) && Blank(back)
      && (t != "" ==> !IsSpace(t[0]) && !IsSpace(t[|t| - 1]))
  {
    front := TrimLeftCuts(s);
    back := TrimRightCuts(TrimLeft(s));
    var t := TrimSpace(s);
    assert t != "" ==> t[0] == TrimLeft(s)[0];
  }

  lemma TrimsToNothing(s: string)
    ensures TrimSpace(s) == "" <==> Blank(s)
  {
    hide IsSpace;
    var front, back := TrimMeans(s);
    if TrimSpace(s) == "" {
      assert s == front + back;
    } else {
      assert s[|front|] == TrimSpace(s)[0];
    }
  }

  // The code points of white space, and the capitals that are lowered.
  lemma CodePoints(c: char)
    ensures var n := c as int;
      IsSpace(c) <==> 9 <= n <= 13 || n in {32, 133, 160, 5760, 8232, 8233, 8239, 8287, 12288} || 8192 <= n <= 8202
    ensures var n := c as int; ToLowerChar(c) as int == if 65 <= n <= 90 then n + 32 else n
  {
  }

  predicate OccursAt(s: string, sub: string, i: nat) {
    i + |sub| <= |s| && s[i..i + |sub|] == sub
  }

  lemma {:induction false} ContainsMeans(s: string, sub: string)
    ensures Contains(s, sub) <==> exists i :: OccursAt(s, sub, i)
  {
    if sub <= s {
      assert OccursAt(s, sub, 0);
    } else if s != "" {
      ContainsMeans(s[1..], sub);
      if i: nat :| OccursAt(s[1..], sub, i) {
        assert s[1..][i..i + |sub|] == s[i + 1..i + 1 + |sub|];
        assert OccursAt(s, sub, i + 1);
      }
      if i: nat :| OccursAt(s, sub, i) {
        if i > 0 {
          assert s[1..][i - 1..i - 1 + |sub|] == s[i..i + |sub|];
          assert OccursAt(s[1..], sub, i - 1);
        }
      }
    }
  }

  lemma TrimTwice(s: string)
    ensures TrimSpace(TrimSpace(s)) == TrimSpace(s)
  {
    var t := TrimSpace(s);
    assert t == "" || t[0] == TrimLeft(s)[0];
    assert TrimLeft(t) == t;
  }

  function ToLowerChar(c: char): char {
    if 'A' <= c <= 'Z' then c - 'A' + 'a' else c
  }

  function ToLower(s: string): string {
    seq(|s|, i requires 0 <= i < |s| => ToLowerChar(s[i]))
  }

  predicate Contains(s: string, sub: string) {
    sub <= s || (s != "" && Contains(s[1..], sub))
  }

  // Position of the first c at or after i, or |s|.
  function Find(s: string, c: char, i: nat): (k: nat)
    requires i <= |s|
    ensures i <= k <= |s|
    ensures k < |s| ==> s[k] == c
    ensures forall j :: i <= j < k ==> s[j] != c
    decreases |s| - i
  {
    if i == |s| || s[i] == c then i else Find(s, c, i + 1)
  }

  function Join(parts: seq<string>, sep: string): string {
    if parts == [] then ""
    else if |parts| == 1 then parts[0]
    else parts[0] + sep + Join(parts[1..], sep)
  }
}
