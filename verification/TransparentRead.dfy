// Reading the switch back: snippetReadBool (cmd/slimference/hosts_lifecycle.go) is a
// leftmost search of the whole text for an assignment of true or false that a line end
// or a comment follows; white space inside the match may span lines.
module TransparentRead {
  import opened Strs
  import opened TextLines
  import opened TransparentToml

  function SkipInLine(s: string, i: nat): (k: nat)
    requires i <= |s|
    ensures i <= k <= |s|
    decreases |s| - i
  {
    if i < |s| && IsBlank(s[i]) && s[i] != '\n' then SkipInLine(s, i + 1) else i
  }

  predicate LineEnds(s: string, i: nat)
    requires i <= |s|
  {
    var k := SkipInLine(s, i);
    k == |s| || s[k] == '\n' || s[k] == '#'
  }

  function ValueAt(s: string, c: nat): Option<bool>
    requires c <= |s|
  {
    if At(s, c, "true") then (if LineEnds(s, c + 4) then Some(true) else None)
    else if At(s, c, "false") then (if LineEnds(s, c + 5) then Some(false) else None)
    else None
  }

  function AfterKey(s: string, i: nat): Option<bool>
    requires i <= |s|
  {
    var b := SkipBlank(s, i);
    if b < |s| && s[b] == '=' then ValueAt(s, SkipBlank(s, b + 1)) else None
  }

  function KeyAt(s: string, a: nat, key: string): Option<bool>
    requires a <= |s|
  {
    if At(s, a, key) then AfterKey(s, a + |key|) else None
  }

  // The match that starts at p.
  function MatchAt(s: string, p: nat, key: string): Option<bool>
    requires p <= |s|
  {
    if p == 0 || s[p - 1] == '\n' then KeyAt(s, SkipBlank(s, p), key) else None
  }

  function ReadFrom(s: string, p: nat, key: string): Option<bool>
    requires p <= |s|
    decreases |s| - p
  {
    var m := MatchAt(s, p, key);
    if m.Some? || p == |s| then m else ReadFrom(s, p + 1, key)
  }

  function ReadBool(s: string, key: string): Option<bool> {
    ReadFrom(s, 0, key)
  }

  // ---- the pattern, without scanning ----

  // Behind the value: white space in the line, then its end or a comment.
  predicate EndsAt(s: string, i: nat, k: nat) {
    && i <= k <= |s| && (forall j :: i <= j < k ==> s[j] as int in {9, 12, 13, 32})
    && (k < |s| ==> s[k] as int in {10, 35})
  }

  lemma LineEndsMeans(s: string, i: nat)
    requires i <= |s|
    ensures LineEnds(s, i) <==> exists k :: EndsAt(s, i, k)
  {
    SkipInLineStops(s, i);
    var n := SkipInLine(s, i);
    if k: nat :| EndsAt(s, i, k) {
      assert k == n;
    }
    if LineEnds(s, i) {
      assert EndsAt(s, i, n);
    }
  }

  lemma {:induction false} SkipInLineStops(s: string, i: nat)
    requires i <= |s|
    ensures var n := SkipInLine(s, i);
      && (forall j :: i <= j < n ==> s[j] as int in {9, 12, 13, 32})
      && (n < |s| ==> s[n] as int !in {9, 12, 13, 32})
    decreases |s| - i
  {
    if i < |s| && IsBlank(s[i]) && s[i] != '\n' {
      SkipInLineStops(s, i + 1);
    }
  }

  // At a line start: white space, the key, white space, an equals sign, white space and
  // the value, with a line end or a comment behind it.
  predicate ReadsAt(s: string, p: nat, key: string, v: bool, a: nat, b: nat, c: nat) {
    && p <= |s| && (p == 0 || s[p - 1] as int == 10)
    && Blanks(s, p, a) && At(s, a, key) && Blanks(s, a + |key|, b) && b < |s| && s[b] as int == 61
    && Blanks(s, b + 1, c) && At(s, c, if v then "true" else "false") && LineEnds(s, c + if v then 4 else 5)
  }

  lemma ValueMeans(s: string, c: nat, v: bool)
    requires c <= |s|
    ensures ValueAt(s, c) == Some(v) <==>
      At(s, c, if v then "true" else "false") && LineEnds(s, c + if v then 4 else 5)
    ensures ValueAt(s, c).Some? ==> c < |s| && !IsBlank(s[c])
  {
    hide LineEnds;
    assert At(s, c, "true") ==> s[c] == s[c..c + 4][0] == 't';
    assert At(s, c, "false") ==> s[c] == s[c..c + 5][0] == 'f';
  }

  lemma MatchMeans(s: string, p: nat, key: string, v: bool)
    requires p <= |s| && BareKey(key)
    ensures MatchAt(s, p, key) == Some(v) <==> exists a, b, c :: ReadsAt(s, p, key, v, a, b, c)
  {
    hide LineEnds, IsBlank, ValueAt, At;
    if a: nat, b: nat, c: nat :| ReadsAt(s, p, key, v, a, b, c) {
      MatchedAt(s, p, key, v, a, b, c);
    }
    if MatchAt(s, p, key) == Some(v) {
      var a := SkipBlank(s, p);
      var b := SkipBlank(s, a + |key|);
      var c := SkipBlank(s, b + 1);
      ValueMeans(s, c, v);
      assert ReadsAt(s, p, key, v, a, b, c);
    }
  }

  lemma MatchedAt(s: string, p: nat, key: string, v: bool, a: nat, b: nat, c: nat)
    requires BareKey(key) && ReadsAt(s, p, key, v, a, b, c)
    ensures MatchAt(s, p, key) == Some(v)
  {
    hide LineEnds, IsBlank, ValueAt, At;
    KeyIsNoBlank(s, a, key);
    EqualsIsNoBlank();
    ValueMeans(s, c, v);
    SkipExact(s, p, a);
    SkipExact(s, a + |key|, b);
    SkipExact(s, b + 1, c);
  }

  predicate FirstMatch(s: string, i: nat, key: string, v: bool, p: nat) {
    i <= p <= |s| && MatchAt(s, p, key) == Some(v) && forall q :: i <= q < p ==> MatchAt(s, q, key) == None
  }

  // The switch reads as the leftmost match.
  lemma ReadMeans(s: string, key: string, v: bool)
    ensures ReadBool(s, key) == Some(v) <==> exists p :: FirstMatch(s, 0, key, v, p)
  {
    hide MatchAt, FirstMatch;
    ReadFromMeans(s, 0, key, v);
  }

  lemma {:induction false} ReadFromMeans(s: string, i: nat, key: string, v: bool)
    requires i <= |s|
    ensures ReadFrom(s, i, key) == Some(v) <==> exists p :: FirstMatch(s, i, key, v, p)
    decreases |s| - i
  {
    hide MatchAt;
    if MatchAt(s, i, key).None? && i < |s| {
      var next := i + 1;
      ReadFromMeans(s, next, key, v);
      if p: nat :| FirstMatch(s, next, key, v, p) {
        assert FirstMatch(s, i, key, v, p);
      }
      if p: nat :| FirstMatch(s, i, key, v, p) {
        assert p != i && FirstMatch(s, next, key, v, p);
      }
    } else {
      assert FirstMatch(s, i, key, v, i) <==> MatchAt(s, i, key) == Some(v);
    }
  }

  function OrElse(a: Option<bool>, b: Option<bool>): Option<bool> {
    if a.Some? then a else b
  }

  // ---- a text of whole lines followed by an assignment ----

  // s is whole lines t, then a line that assigns value to the key.
  ghost predicate Written(t: string, line: string, rest: string, key: string, value: string) {
    && BareKey(key) && Literal(value) && OneLine(line)
    && (t == "" || t[|t| - 1] == '\n')
    && (rest == "" || rest[0] == '\n')
    && ValueStart(line, key).Some?
    && line[ValueStart(line, key).value..] == value
  }

  lemma SkipInT(t: string, u: string, i: nat)
    requires i <= |t|
    ensures SkipBlank(t, i) < |t| ==> SkipBlank(t + u, i) == SkipBlank(t, i)
    ensures SkipBlank(t, i) == |t| ==> SkipBlank(t + u, i) == |t| + SkipBlank(u, 0)
  {
    var s := t + u;
    var k := SkipBlank(t, i);
    if k < |t| {
      SkipExact(s, i, k);
    } else {
      var m := SkipBlank(u, 0);
      assert forall j :: i <= j < |t| ==> s[j] == t[j];
      assert forall j :: |t| <= j < |t| + m ==> s[j] == u[j - |t|];
      SkipExact(s, i, |t| + m);
    }
  }

  // A word without newlines does not cross the end of t.
  lemma WordInT(t: string, u: string, i: nat, word: string)
    requires i < |t| && t[|t| - 1] == '\n' && OneLine(word)
    ensures At(t + u, i, word) == At(t, i, word)
    ensures At(t, i, word) ==> i + |word| < |t|
  {
    var s := t + u;
    if i + |word| >= |t| && i + |word| <= |s| {
      assert s[i..i + |word|][|t| - 1 - i] == s[|t| - 1] == '\n';
      if i + |word| == |t| {
        assert t[i..i + |word|][|t| - 1 - i] == '\n';
      }
    } else if i + |word| < |t| {
      assert s[i..i + |word|] == t[i..i + |word|];
    }
  }

  lemma {:induction false} LineEndsInT(t: string, u: string, i: nat)
    requires i < |t| && t[|t| - 1] == '\n'
    ensures LineEnds(t + u, i) == LineEnds(t, i)
    decreases |t| - i
  {
    var s := t + u;
    assert s[i] == t[i];
    if IsBlank(t[i]) && t[i] != '\n' {
      LineEndsInT(t, u, i + 1);
    }
  }

  lemma SkipInLineExact(s: string, i: nat, k: nat)
    requires i <= k < |s| && (forall j :: i <= j < k ==> IsBlank(s[j]) && s[j] != '\n') && !IsBlank(s[k])
    ensures SkipInLine(s, i) == k
    decreases k - i
  {
    if i < k {
      SkipInLineExact(s, i + 1, k);
    }
  }

  // A bare word read where a written line's key starts has no line end after it.
  lemma NoWordEnd(line: string, rest: string, key: string, word: string)
    requires BareKey(key) && Assigns(line, key) && OneLine(line) && BareKey(word)
    requires At(line + rest, SkipBlank(line, 0), word)
    ensures !LineEnds(line + rest, SkipBlank(line, 0) + |word|)
  {
    hide IsBare, SkipBlank, LineEnds, Find;
    var u, a := line + rest, SkipBlank(line, 0);
    var b := SkipBlank(line, a + |key|);
    KeyEnds(line, key);
    BareAt(u, a, word);
    assert u[a + |key|] == line[a + |key|];
    assert |word| <= |key|;
    var k := if |word| == |key| then b else a + |word|;
    assert u[k] == line[k];
    if |word| < |key| {
      BlanksAreNotBare(line[k]);
    }
    assert forall j :: a + |word| <= j < k ==> u[j] == line[j];
    StopsThere(u, a + |word|, k);
  }

  lemma BlanksAreNotBare(c: char)
    requires IsBare(c)
    ensures !IsBlank(c) && c != '#'
  {
  }

  lemma StopsThere(s: string, i: nat, k: nat)
    requires i <= k < |s| && (forall j :: i <= j < k ==> IsBlank(s[j]) && s[j] != '\n')
    requires !IsBlank(s[k]) && s[k] != '#'
    ensures !LineEnds(s, i)
  {
    SkipInLineExact(s, i, k);
  }

  // Where a value is expected, a written line offers none: it starts with its key.
  lemma NoValueAtKey(line: string, rest: string, key: string)
    requires BareKey(key) && Assigns(line, key) && OneLine(line)
    ensures SkipBlank(line + rest, 0) == SkipBlank(line, 0) < |line|
    ensures ValueAt(line + rest, SkipBlank(line + rest, 0)) == None
    ensures (line + rest)[SkipBlank(line, 0)] != '='
  {
    hide IsBare, LineEnds;
    var u, a := line + rest, SkipBlank(line, 0);
    KeyEnds(line, key);
    BlanksAreNotBare(line[a]);
    SkipExact(u, 0, a);
    TrueFalseBare();
    if At(u, a, "true") {
      NoWordEnd(line, rest, key, "true");
    }
    if At(u, a, "false") {
      NoWordEnd(line, rest, key, "false");
    }
  }

  lemma TrueFalseBare()
    ensures BareKey("true") && BareKey("false") && !IsBare('=')
  {
  }

  // A value, a key's rest and a match that start inside t are found in t alone.
  lemma ValueInT(t: string, u: string, c: nat)
    requires c < |t| && t[|t| - 1] == '\n'
    ensures ValueAt(t + u, c) == ValueAt(t, c)
  {
    hide LineEnds;
    WordInT(t, u, c, "true");
    WordInT(t, u, c, "false");
    if At(t, c, "true") {
      LineEndsInT(t, u, c + 4);
    } else if At(t, c, "false") {
      LineEndsInT(t, u, c + 5);
    }
  }

  lemma AfterKeyInT(t: string, line: string, rest: string, i: nat, key: string)
    requires i < |t| && t[|t| - 1] == '\n'
    requires BareKey(key) && Assigns(line, key) && OneLine(line)
    ensures AfterKey(t + (line + rest), i) == AfterKey(t, i)
  {
    hide ValueAt, BareKey, Assigns;
    var u := line + rest;
    SkipInT(t, u, i);
    NoValueAtKey(line, rest, key);
    var b := SkipBlank(t, i);
    if b < |t| && t[b] == '=' {
      SkipInT(t, u, b + 1);
      var c := SkipBlank(t, b + 1);
      if c < |t| {
        ValueInT(t, u, c);
      } else {
        ValueShift(t, u, SkipBlank(u, 0));
        NothingAtEnd(t);
      }
    }
  }

  lemma NothingAtEnd(t: string)
    ensures ValueAt(t, |t|) == None
  {
  }

  lemma LineEndsShift(t: string, u: string, i: nat)
    requires i <= |u|
    ensures LineEnds(t + u, |t| + i) == LineEnds(u, i)
    decreases |u| - i
  {
    if i < |u| && IsBlank(u[i]) && u[i] != '\n' {
      LineEndsShift(t, u, i + 1);
    }
  }

  lemma AtShift(t: string, u: string, i: nat, word: string)
    ensures At(t + u, |t| + i, word) == At(u, i, word)
  {
    if i + |word| <= |u| {
      assert (t + u)[|t| + i..|t| + i + |word|] == u[i..i + |word|];
    }
  }

  lemma ValueShift(t: string, u: string, i: nat)
    requires i <= |u|
    ensures ValueAt(t + u, |t| + i) == ValueAt(u, i)
  {
    hide LineEnds, At;
    AtShift(t, u, i, "true");
    AtShift(t, u, i, "false");
    if At(u, i, "true") {
      TrueFits(u, i);
      LineEndsShift(t, u, i + 4);
    } else if At(u, i, "false") {
      TrueFits(u, i);
      LineEndsShift(t, u, i + 5);
    }
  }

  lemma TrueFits(u: string, i: nat)
    ensures At(u, i, "true") ==> i + 4 <= |u|
    ensures At(u, i, "false") ==> i + 5 <= |u|
  {
  }
}
