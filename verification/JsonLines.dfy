// Newline-framed JSON: the lines of a stream, and a JSON value as a tree with a printer
// and a parser that are taken from outside and obey the laws below.
module JsonLines {
  import opened Strs
  import opened TextLines

  datatype Json =
    | Null
    | Bool(value: bool)
    | Number(text: string)
    | Str(text: string)
    | Array(items: seq<Json>)
    | Object(members: map<string, Json>)

  // encoding/json refuses deeper nesting.
  const MAX_DEPTH := 10000

  predicate IsDigits(s: string) {
    s != "" && forall i :: 0 <= i < |s| ==> '0' <= s[i] <= '9'
  }

  function SkipDigits(s: string): (r: string)
    ensures |r| <= |s|
  {
    if s != "" && '0' <= s[0] <= '9' then SkipDigits(s[1..]) else s
  }

  function SkipSign(s: string, plus: bool): string {
    if s != "" && (s[0] == '-' || (plus && s[0] == '+')) then s[1..] else s
  }

  predicate IsExponent(s: string) {
    s == "" || ((s[0] == 'e' || s[0] == 'E') && IsDigits(SkipSign(s[1..], true)))
  }

  predicate IsFraction(s: string) {
    if s != "" && s[0] == '.' then
      var rest := SkipDigits(s[1..]);
      |rest| < |s| - 1 && IsExponent(rest)
    else IsExponent(s)
  }

  // The number grammar of RFC 8259, section 6.
  predicate IsNumber(text: string) {
    var s := SkipSign(text, false);
    s != "" && '0' <= s[0] <= '9' && IsFraction(if s[0] == '0' then s[1..] else SkipDigits(s))
  }

  // ---- the grammar, without scanning ----

  predicate DigitsTo(s: string, n: nat) {
    0 < n <= |s| && forall i :: 0 <= i < n ==> 48 <= s[i] as int <= 57
  }

  lemma {:induction false} SkipMeans(s: string) returns (n: nat)
    ensures n <= |s| && SkipDigits(s) == s[n..] && (n > 0 ==> DigitsTo(s, n))
    ensures n < |s| ==> !(48 <= s[n] as int <= 57)
  {
    n := 0;
    if s != "" && '0' <= s[0] <= '9' {
      n := SkipMeans(s[1..]);
      n := n + 1;
    }
  }

  lemma DigitsMean(s: string)
    ensures IsDigits(s) <==> DigitsTo(s, |s|)
  {
  }

  lemma ExponentMeans(s: string)
    ensures s != "" && IsExponent(s) <==>
      (s != "" && s[0] in "eE" && (IsDigits(s[1..]) || (|s| > 1 && s[1] in "+-" && IsDigits(s[2..]))))
    ensures IsExponent("")
  {
    if |s| > 1 {
      assert s[1..][1..] == s[2..] && s[1..][0] == s[1];
    }
  }

  predicate FractionTo(s: string, n: nat) {
    s != "" && s[0] as int == 46 && DigitsTo(s[1..], n) && IsExponent(s[1..][n..])
  }

  // An exponent does not start with a digit, so the digits before it are all of a run.
  lemma RunIs(s: string, m: nat, n: nat)
    requires DigitsTo(s, m) && IsExponent(s[m..])
    requires n <= |s| && (n > 0 ==> DigitsTo(s, n)) && (n < |s| ==> !(48 <= s[n] as int <= 57))
    ensures m == n
  {
    assert m < |s| ==> s[m..][0] == s[m];
  }

  lemma FractionMeans(s: string)
    ensures IsFraction(s) <==> IsExponent(s) || exists n :: FractionTo(s, n)
  {
    if s != "" && s[0] == '.' {
      var n := SkipMeans(s[1..]);
      if m: nat :| FractionTo(s, m) {
        assert m == n by { RunIs(s[1..], m, n); }
      }
      if IsFraction(s) {
        assert FractionTo(s, n);
      }
    }
  }

  predicate WholeTo(s: string, n: nat) {
    DigitsTo(s, n) && (n > 1 ==> s[0] as int != 48) && IsFraction(s[n..])
  }

  lemma NoDigitStarts(s: string)
    requires IsFraction(s)
    ensures s == "" || !(48 <= s[0] as int <= 57)
  {
  }

  lemma WholeMeans(s: string)
    ensures s != "" && '0' <= s[0] <= '9' && IsFraction(if s[0] == '0' then s[1..] else SkipDigits(s))
      <==> exists n :: WholeTo(s, n)
  {
    hide IsFraction;
    if s != "" && '0' <= s[0] <= '9' {
      var n := SkipMeans(s);
      var k := if s[0] == '0' then 1 else n;
      if m: nat :| WholeTo(s, m) {
        NoDigitStarts(s[m..]);
      }
      if IsFraction(s[k..]) {
        assert WholeTo(s, k);
      }
    }
  }

  // An optional minus sign, digits without a leading zero, and an optional fraction and
  // exponent.
  lemma NumberMeans(text: string)
    ensures IsNumber(text) <==>
      (exists n :: WholeTo(text, n)) || (text != "" && text[0] as int == 45 && exists n :: WholeTo(text[1..], n))
  {
    hide IsFraction;
    WholeMeans(text);
    if text != "" {
      WholeMeans(text[1..]);
    }
  }

  // Numbers are numbers, and containers nest at most so deep.
  predicate WellFormed(j: Json, depth: nat)
    decreases depth
  {
    match j
    case Null => true
    case Bool(_) => true
    case Str(_) => true
    case Number(text) => IsNumber(text)
    case Array(items) => depth > 0 && forall i :: 0 <= i < |items| ==> WellFormed(items[i], depth - 1)
    case Object(members) => depth > 0 && forall k :: k in members ==> WellFormed(members[k], depth - 1)
  }

  // The innermost containers may be empty, and no depth is left for more.
  lemma NestsTo(j: Json)
    ensures WellFormed(Array([]), 1) && WellFormed(Object(map[]), 1)
    ensures !WellFormed(Array([j]), 0) && !WellFormed(Object(map[]), 0)
    ensures WellFormed(Array([j]), 1) <==> WellFormed(j, 0)
  {
    assert WellFormed(Array([j]), 1) ==> WellFormed([j][0], 0);
  }

  predicate IsMessage(members: map<string, Json>) {
    WellFormed(Object(members), MAX_DEPTH)
  }

  datatype Codec = Codec(parse: string -> Option<Json>, print_: Json -> string) {
    // Only well-formed trees are parsed. Printed, they have no newline and no white space
    // around them, an object starts with a brace, and they read back.
    ghost predicate Lawful() {
      && (forall s: string :: parse(s).Some? ==> WellFormed(parse(s).value, MAX_DEPTH))
      && (forall j: Json :: WellFormed(j, MAX_DEPTH) ==> Printed(j))
    }

    ghost predicate Printed(j: Json) {
      && parse(print_(j)) == Some(j) && OneLine(print_(j)) && TrimSpace(print_(j)) == print_(j) != ""
      && (j.Object? ==> print_(j)[..1] == "{")
    }

    // The object that a line holds, if it starts like one.
    function ReadObject(content: string): Option<map<string, Json>> {
      var t := TrimSpace(content);
      if t == "" || t[0] != '{' then None
      else match parse(t)
        case Some(Object(members)) => Some(members)
        case _ => None
    }
  }

  // A line is read as an object exactly if its text starts with a brace and parses as one.
  lemma ReadsObject(c: Codec, content: string, members: map<string, Json>)
    ensures c.ReadObject(content) == Some(members) <==>
      OccursAt(TrimSpace(content), "{", 0) && c.parse(TrimSpace(content)) == Some(Object(members))
    ensures IsMessage(members) <==> WellFormed(Object(members), 10000)
  {
    hide TrimSpace, WellFormed;
    var t := TrimSpace(content);
    assert t != "" ==> t[0..0 + 1] == [t[0]];
  }

  lemma ReadIsMessage(c: Codec, content: string)
    requires c.Lawful() && c.ReadObject(content).Some?
    ensures IsMessage(c.ReadObject(content).value)
  {
    hide TrimSpace, WellFormed;
  }

  lemma PrintedReads(c: Codec, members: map<string, Json>)
    requires c.Lawful() && IsMessage(members)
    ensures c.ReadObject(c.print_(Object(members))) == Some(members)
    ensures OneLine(c.print_(Object(members))) && c.print_(Object(members)) != ""
  {
    hide TrimSpace, WellFormed;
    var s := c.print_(Object(members));
    assert c.Printed(Object(members));
    assert TrimSpace(s) == s && s[..1] == "{";
    assert s[0] == s[..1][0];
  }

  // ---- lines ----

  // What successive reads up to a newline return; the last one may lack its newline.
  function Chunks(s: string): seq<string>
    decreases |s|
  {
    if s == "" then []
    else
      var k := Find(s, '\n', 0);
      if k == |s| then [s] else [s[..k + 1]] + Chunks(s[k + 1..])
  }

  function Flatten(chunks: seq<string>): string {
    if chunks == [] then "" else chunks[0] + Flatten(chunks[1..])
  }

  predicate Ended(chunk: string) {
    chunk != "" && chunk[|chunk| - 1] == '\n'
  }

  function Content(chunk: string): string {
    if Ended(chunk) then chunk[..|chunk| - 1] else chunk
  }

  // Not empty, with no newline but one that may end it.
  predicate IsChunk(chunk: string) {
    chunk != "" && OneLine(Content(chunk))
  }

  ghost predicate AreChunks(chunks: seq<string>) {
    && (forall i :: 0 <= i < |chunks| ==> IsChunk(chunks[i]))
    && (forall i :: 0 <= i < |chunks| - 1 ==> Ended(chunks[i]))
  }

  lemma {:induction false} ChunksAre(s: string)
    ensures AreChunks(Chunks(s)) && Flatten(Chunks(s)) == s
    decreases |s|
  {
    if s != "" {
      var k := Find(s, '\n', 0);
      if k == |s| {
        assert [s][1..] == [] && s + "" == s;
      } else {
        ChunksAre(s[k + 1..]);
        assert Chunks(s)[1..] == Chunks(s[k + 1..]);
        assert s[..k + 1] + s[k + 1..] == s;
      }
    }
  }

  lemma {:induction false} ChunksUnique(chunks: seq<string>)
    requires AreChunks(chunks)
    ensures Chunks(Flatten(chunks)) == chunks
  {
    if chunks != [] {
      var first, rest := chunks[0], Flatten(chunks[1..]);
      var s := first + rest;
      ChunksUnique(chunks[1..]);
      FirstChunk(first, rest);
      if |chunks| == 1 {
        assert chunks[1..] == [];
        assert s == first;
      }
      assert chunks == [first] + chunks[1..];
    }
  }

  lemma FirstChunk(first: string, rest: string)
    requires IsChunk(first) && (rest != "" ==> Ended(first))
    ensures Chunks(first + rest) == [first] + Chunks(rest)
  {
    var s := first + rest;
    var n := |Content(first)|;
    assert forall i :: 0 <= i < n ==> s[i] == Content(first)[i];
    if Ended(first) {
      assert s[n] == '\n';
      assert Find(s, '\n', 0) == n;
      assert s[..n + 1] == first && s[n + 1..] == rest;
    } else {
      assert s == first;
      assert Find(s, '\n', 0) == |s|;
    }
  }
}
