// The switch written by the surgical edit and the switch read on SIGHUP agree, up to
// what the file says above the edited line.
module TransparentReload {
  import opened Strs
  import opened TextLines
  import opened TransparentToml
  import opened TransparentRead

  // ---- a match found in a text is found in the text moved behind whole lines ----

  lemma SkipShift(t: string, u: string, i: nat)
    requires i <= |u|
    ensures SkipBlank(t + u, |t| + i) == |t| + SkipBlank(u, i)
  {
    var k := SkipBlank(u, i);
    assert forall j :: |t| + i <= j < |t| + k ==> (t + u)[j] == u[j - |t|];
    SkipExact(t + u, |t| + i, |t| + k);
  }

  lemma KeyShift(t: string, u: string, a: nat, key: string)
    requires a <= |u|
    ensures KeyAt(t + u, |t| + a, key) == KeyAt(u, a, key)
  {
    hide ValueAt, SkipBlank;
    AtShift(t, u, a, key);
    if At(u, a, key) {
      var i := a + |key|;
      SkipShift(t, u, i);
      var b := SkipBlank(u, i);
      if b < |u| && u[b] == '=' {
        SkipShift(t, u, b + 1);
        ValueShift(t, u, SkipBlank(u, b + 1));
      }
    }
  }

  lemma MatchShift(t: string, u: string, p: nat, key: string)
    requires p <= |u| && (t == "" || t[|t| - 1] == '\n')
    ensures MatchAt(t + u, |t| + p, key) == MatchAt(u, p, key)
  {
    hide KeyAt, SkipBlank;
    SkipShift(t, u, p);
    KeyShift(t, u, SkipBlank(u, p), key);
  }

  lemma {:induction false} ReadShift(t: string, u: string, p: nat, key: string)
    requires p <= |u| && (t == "" || t[|t| - 1] == '\n')
    ensures ReadFrom(t + u, |t| + p, key) == ReadFrom(u, p, key)
    decreases |u| - p
  {
    hide MatchAt;
    MatchShift(t, u, p, key);
    if p < |u| {
      ReadShift(t, u, p + 1, key);
    }
  }

  // ---- the written line is found ----

  lemma NoKeyAtEnd(t: string, key: string)
    requires BareKey(key)
    ensures KeyAt(t, |t|, key) == None && ReadFrom(t, |t|, key) == None
  {
    assert !At(t, |t|, key);
  }

  lemma WrittenKey(t: string, line: string, rest: string, key: string, value: string)
    requires Written(t, line, rest, key, value)
    ensures KeyAt(line + rest, SkipBlank(line, 0), key) == Some(value == "true")
  {
    hide *;
    var u, a := line + rest, SkipBlank(line, 0);
    WrittenParts(t, line, rest, key, value);
    var b := SkipBlank(line, a + |key|);
    var c := SkipBlank(line, b + 1);
    assert u[..|line|] == line;
    WrittenValue(line, rest, c, value);
    ScansAlike(line, u, a, key);
    ScansTo(line, u, a + |key|, b);
    ScansTo(line, u, b + 1, c);
    KeyAtIs(u, a, b, c, key);
  }

  lemma WrittenParts(t: string, line: string, rest: string, key: string, value: string)
    requires Written(t, line, rest, key, value)
    ensures Literal(value) && (rest == "" || rest[0] == '\n')
    ensures var a := SkipBlank(line, 0); At(line, a, key) && a + |key| <= |line|
    ensures var b := SkipBlank(line, SkipBlank(line, 0) + |key|);
      b < |line| && line[b] == '=' && line[SkipBlank(line, b + 1)..] == value
  {
    hide SkipBlank, BareKey, OneLine, Literal;
  }

  lemma KeyAtIs(u: string, a: nat, b: nat, c: nat, key: string)
    requires At(u, a, key) && a + |key| <= |u|
    requires SkipBlank(u, a + |key|) == b < |u| && u[b] == '=' && SkipBlank(u, b + 1) == c
    ensures KeyAt(u, a, key) == ValueAt(u, c)
  {
    hide SkipBlank, ValueAt;
  }

  lemma ScansTo(line: string, u: string, i: nat, k: nat)
    requires i <= |line| <= |u| && u[..|line|] == line && k == SkipBlank(line, i) < |line|
    ensures SkipBlank(u, i) == k && u[k] == line[k]
  {
    assert forall j :: 0 <= j < |line| ==> u[j] == u[..|line|][j];
    SkipExact(u, i, k);
  }

  lemma ScansAlike(line: string, u: string, a: nat, key: string)
    requires |line| <= |u| && u[..|line|] == line && At(line, a, key)
    ensures At(u, a, key)
  {
    assert u[a..a + |key|] == line[a..a + |key|];
  }

  lemma WrittenValue(line: string, rest: string, c: nat, value: string)
    requires Literal(value) && c <= |line| && line[c..] == value && (rest == "" || rest[0] == '\n')
    ensures c < |line| && !IsBlank(line[c])
    ensures ValueAt(line + rest, c) == Some(value == "true")
  {
    hide LineEnds;
    var u := line + rest;
    assert line[c] == value[0];
    assert u[c..c + |value|] == value;
    EndOfLine(u, |line|);
    if value == "false" {
      assert u[c] == 'f';
      assert !At(u, c, "true");
    }
  }

  lemma EndOfLine(s: string, i: nat)
    requires i <= |s| && (i < |s| ==> s[i] == '\n')
    ensures LineEnds(s, i)
  {
  }

  lemma MatchInT(t: string, line: string, rest: string, p: nat, key: string, value: string)
    requires p < |t| && Written(t, line, rest, key, value)
    ensures var m := MatchAt(t + (line + rest), p, key);
      m == MatchAt(t, p, key) || (ReadFrom(t, p, key) == None && m == Some(value == "true"))
  {
    hide AfterKey, SkipBlank, ValueStart;
    var u := line + rest;
    SkipInT(t, u, p);
    assert (t + u)[..|t|] == t;
    var a := SkipBlank(t, p);
    if a < |t| {
      WordInT(t, u, a, key) by {
        BareKeyIsOneLine(key);
      }
      if At(t, a, key) {
        AfterKeyInT(t, line, rest, a + |key|, key);
      }
    } else {
      NothingInBlanks(t, p, key);
      NoValueAtKey(line, rest, key);
      WrittenKey(t, line, rest, key, value);
      KeyShift(t, u, SkipBlank(line, 0), key);
    }
  }

  lemma {:induction false} NothingInBlanks(t: string, p: nat, key: string)
    requires p <= |t| && SkipBlank(t, p) == |t| && BareKey(key)
    ensures MatchAt(t, p, key) == None && ReadFrom(t, p, key) == None
    decreases |t| - p
  {
    NoKeyAtEnd(t, key);
    if p < |t| {
      NothingInBlanks(t, p + 1, key);
    }
  }

  lemma BareKeyIsOneLine(key: string)
    requires BareKey(key)
    ensures OneLine(key)
  {
    assert forall i :: 0 <= i < |key| ==> IsBare(key[i]);
  }

  lemma {:induction false} ReadWritten(t: string, line: string, rest: string, p: nat, key: string, value: string)
    requires p <= |t| && Written(t, line, rest, key, value)
    ensures ReadFrom(t + (line + rest), p, key) == OrElse(ReadFrom(t, p, key), Some(value == "true"))
    decreases |t| - p
  {
    hide MatchAt;
    if p < |t| {
      MatchInT(t, line, rest, p, key, value);
      ReadWritten(t, line, rest, p + 1, key, value);
    } else {
      WrittenMatch(t, line, rest, key, value);
      NoKeyAtEnd(t, key);
    }
  }

  lemma WrittenMatch(t: string, line: string, rest: string, key: string, value: string)
    requires Written(t, line, rest, key, value)
    ensures MatchAt(t + (line + rest), |t|, key) == Some(value == "true")
  {
    hide KeyAt, SkipBlank, ValueStart;
    var u := line + rest;
    MatchShift(t, u, 0, key);
    NoValueAtKey(line, rest, key);
    WrittenKey(t, line, rest, key, value);
    assert MatchAt(u, 0, key) == KeyAt(u, SkipBlank(u, 0), key);
    assert (t + u)[|t| + 0..] == u;
  }

  // ---- the edited file ----

  // The text above the line that the edit writes.
  function Above(lines: seq<string>, key: string): string {
    match Plan(lines, key)
    case Replace(k) => Before(lines, k)
    case Insert(k) => Before(lines, k)
    case Append => Before(Ended(lines) + [TABLE], |Ended(lines)| + 1)
  }

  function WrittenAt(lines: seq<string>, key: string): nat {
    match Plan(lines, key)
    case Replace(k) => k
    case Insert(k) => k
    case Append => |Ended(lines)| + 1
  }

  lemma EditedLine(lines: seq<string>, key: string, value: string)
    requires BareKey(key) && Literal(value) && AllLines(lines)
    ensures var r, k := Edited(lines, key, value), WrittenAt(lines, key);
      && k < |r| && OneLine(r[k]) && Before(r, k) == Above(lines, key)
      && ValueStart(r[k], key).Some? && r[k][ValueStart(r[k], key).value..] == value
  {
    hide ValueStart, OneLine;
    var r := Edited(lines, key, value);
    var k := WrittenAt(lines, key);
    AssignmentAssigns(key, value);
    match Plan(lines, key) {
      case Replace(_) =>
        RewriteKeeps(lines[k], key, value);
        BeforePrefix(r, lines, k);
      case Insert(_) =>
        BeforePrefix(r, lines, k);
      case Append =>
        BeforePrefix(r, Ended(lines) + [TABLE], k);
    }
  }

  // The reader returns the written value, unless the text above the edited line already
  // holds a match: then it returns that one.
  lemma ReadsBack(lines: seq<string>, key: string, value: string)
    requires BareKey(key) && Literal(value) && AllLines(lines)
    ensures ReadBool(Join(Edited(lines, key, value), "\n"), key)
         == OrElse(ReadBool(Above(lines, key), key), Some(value == "true"))
  {
    hide Edited, Above, WrittenAt, ReadFrom, ValueStart, OneLine, Plan;
    var r, k := Edited(lines, key, value), WrittenAt(lines, key);
    EditedLine(lines, key, value);
    var t := Above(lines, key);
    JoinBefore(r, k);
    EndsWithLine(r, k);
    JoinHead(r[k..]);
    var rest :| Join(r[k..], "\n") == r[k] + rest && (rest == "" || rest[0] == '\n');
    ReadWritten(t, r[k], rest, 0, key, value);
  }

  // Exactly when the written value is the one read.
  lemma ReadsBackIff(lines: seq<string>, key: string, value: string)
    requires BareKey(key) && Literal(value) && AllLines(lines)
    ensures ReadBool(Join(Edited(lines, key, value), "\n"), key) == Some(value == "true")
       <==> ReadBool(Above(lines, key), key) != Some(value != "true")
  {
    hide Edited, Above, ReadBool, Join, BareKey, AllLines;
    ReadsBack(lines, key, value);
    var above, v := ReadBool(Above(lines, key), key), value == "true";
    assert Some(value != "true") == Some(!v) && Some(value == "true") == Some(v);
    if above.Some? {
      assert OrElse(above, Some(v)) == Some(above.value);
      assert above == Some(above.value);
      if above.value == v {
        assert above == Some(v);
      } else {
        assert above == Some(!v);
      }
    }
  }

  // ---- no line starts with the key: nothing is read ----

  predicate Mentions(line: string, key: string) {
    At(line, SkipBlank(line, 0), key)
  }

  lemma {:induction false} NoLineStart(line: string, u: string, p: nat, key: string)
    requires 0 < p <= |line| && OneLine(line)
    ensures ReadFrom(line + "\n" + u, p, key) == ReadFrom(line + "\n" + u, |line| + 1, key)
    decreases |line| - p
  {
    hide KeyAt;
    var s := line + "\n" + u;
    assert s[p - 1] == line[p - 1];
    assert MatchAt(s, p, key) == None;
    if p < |line| {
      NoLineStart(line, u, p + 1, key);
    }
  }

  lemma NoMention(line: string, u: string, key: string)
    requires BareKey(key) && OneLine(line) && !Mentions(line, key)
    ensures MatchAt(line + "\n" + u, 0, key) == None || MatchAt(line + "\n" + u, 0, key) == MatchAt(u, 0, key)
  {
    hide AfterKey, SkipBlank;
    var t := line + "\n";
    SkipInT(t, u, 0);
    SkipInT(line, "\n", 0);
    BareKeyIsOneLine(key);
    var a := SkipBlank(t, 0);
    if a < |t| {
      WordInT(t, u, a, key);
      if At(t, a, key) {
        MentionMoves(line, a, key);
      }
    } else {
      MatchIn(t, u, key);
    }
  }

  lemma MatchIn(t: string, u: string, key: string)
    requires t != "" && t[|t| - 1] == '\n' && SkipBlank(t, 0) == |t|
    ensures MatchAt(t + u, 0, key) == MatchAt(u, 0, key)
  {
    hide KeyAt;
    SkipInT(t, u, 0);
    KeyShift(t, u, SkipBlank(u, 0), key);
  }

  lemma MentionMoves(line: string, a: nat, key: string)
    requires BareKey(key) && At(line + "\n", a, key) && a == SkipBlank(line + "\n", 0) < |line| + 1
    ensures Mentions(line, key)
  {
    hide *;
    var t := line + "\n";
    BareKeyIsOneLine(key);
    WordEndsInside(t, a, key);
    assert t[..|line|] == line;
    ScansBack(line, t, a);
    MentionedAt(line, t, a, key);
  }

  lemma WordEndsInside(t: string, a: nat, word: string)
    requires At(t, a, word) && OneLine(word) && a < |t| && t[|t| - 1] == '\n'
    ensures a + |word| < |t|
  {
    assert forall j :: 0 <= j < |word| ==> word[j] == t[a + j];
  }

  lemma MentionedAt(line: string, t: string, a: nat, key: string)
    requires |line| <= |t| && t[..|line|] == line && At(t, a, key) && a + |key| <= |line| && a == SkipBlank(line, 0)
    ensures Mentions(line, key)
  {
    hide SkipBlank;
    assert t[a..a + |key|] == line[a..a + |key|];
  }

  lemma ScansBack(line: string, t: string, a: nat)
    requires |line| <= |t| && t[..|line|] == line && a == SkipBlank(t, 0) <= |line|
    ensures SkipBlank(line, 0) == a
  {
    assert forall j :: 0 <= j < |line| ==> t[..|line|][j] == t[j];
    SkipExact(line, 0, a);
  }

  lemma {:induction false} ReadsNothing(lines: seq<string>, key: string)
    requires BareKey(key) && AllLines(lines) && forall j :: 0 <= j < |lines| ==> !Mentions(lines[j], key)
    ensures ReadBool(Before(lines, |lines|), key) == None
  {
    hide MatchAt, ReadFrom, OneLine, Mentions;
    if lines == [] {
      NoKeyAtEnd("", key);
      assert Before(lines, 0) == "";
    } else {
      var first, u := lines[0], Before(lines[1..], |lines| - 1);
      ReadsNothing(lines[1..], key);
      BeforeCons(lines);
      var s := first + "\n" + u;
      FirstLineSkipped(first, u, key);
    }
  }

  lemma {:induction false} BeforeCons(lines: seq<string>)
    requires lines != []
    ensures Before(lines, |lines|) == lines[0] + "\n" + Before(lines[1..], |lines| - 1)
  {
    var n := |lines|;
    if n > 1 {
      BeforeCons(lines[..n - 1]);
      BeforePrefix(lines, lines[..n - 1], n - 1);
      assert lines[..n - 1][1..] == lines[1..n - 1];
      BeforePrefix(lines[1..], lines[1..n - 1], n - 2);
    }
  }

  lemma FirstLineSkipped(line: string, u: string, key: string)
    requires BareKey(key) && OneLine(line) && !Mentions(line, key) && ReadBool(u, key) == None
    ensures ReadBool(line + "\n" + u, key) == None
  {
    hide MatchAt, OneLine, Mentions;
    var s := line + "\n" + u;
    var t := line + "\n";
    NoMention(line, u, key);
    assert MatchAt(u, 0, key) == None;
    ReadShift(t, u, 0, key);
    if line != "" {
      NoLineStart(line, u, 1, key);
    }
  }

  // If no line above the edited one starts with the key, the written value is read.
  lemma ReadsBackAlone(lines: seq<string>, key: string, value: string)
    requires BareKey(key) && Literal(value) && AllLines(lines)
    requires forall j :: 0 <= j < |lines| && j < WrittenAt(lines, key) ==> !Mentions(lines[j], key)
    ensures ReadBool(Join(Edited(lines, key, value), "\n"), key) == Some(value == "true")
  {
    hide ReadBool, Mentions, BareKey, Join, Edited, Above, OneLine;
    ReadsBack(lines, key, value);
    ReadsNothing(LinesAbove(lines, key), key) by {
      TableMentionsNothing(key);
    }
    AboveLines(lines, key);
  }

  function LinesAbove(lines: seq<string>, key: string): (above: seq<string>)
    ensures |above| == WrittenAt(lines, key)
  {
    match Plan(lines, key)
    case Replace(k) => lines[..k]
    case Insert(k) => lines[..k]
    case Append => Ended(lines) + [TABLE]
  }

  lemma AboveLines(lines: seq<string>, key: string)
    ensures Above(lines, key) == Before(LinesAbove(lines, key), |LinesAbove(lines, key)|)
  {
    if !Plan(lines, key).Append? {
      BeforePrefix(lines, LinesAbove(lines, key), WrittenAt(lines, key));
    }
  }

  lemma TableMentionsNothing(key: string)
    requires BareKey(key)
    ensures !Mentions(TABLE, key) && !Mentions("", key) && OneLine(TABLE) && OneLine("")
  {
    assert IsBare(key[0]) && !IsBare('[');
    SkipExact(TABLE, 0, 0);
    assert |key| <= |TABLE| ==> TABLE[0..|key|][0] == '[';
  }
}
