// Context-chunk references: the printer FormatReference and the scanner behind
// DecodeReferences (internal/chunkdedup/reference.go).
module ChunkReference {
  import opened Strs

  const HEAD := "[context-chunk status=unchanged uri="
  const SCHEME := "local-archive://"
  const BYTES := " bytes="

  predicate IsIdChar(c: char) {
    'A' <= c <= 'Z' || 'a' <= c <= 'z' || '0' <= c <= '9' || c == '_' || c == '-'
  }

  predicate IsDigit(c: char) {
    '0' <= c <= '9'
  }

  // ---- decimal numbers ----

  function Digits(n: nat): string {
    if n < 10 then [n as char + '0'] else Digits(n / 10) + [(n % 10) as char + '0']
  }

  predicate AllDigits(s: string) {
    s != "" && forall i :: 0 <= i < |s| ==> IsDigit(s[i])
  }

  function Value(s: string): nat
    requires forall i :: 0 <= i < |s| ==> IsDigit(s[i])
  {
    if s == "" then 0 else 10 * Value(s[..|s| - 1]) + DigitOf(s[|s| - 1])
  }

  function DigitOf(c: char): nat
    requires IsDigit(c)
  {
    (c - '0') as nat
  }

  // strconv.Atoi on a digit string: None when the value overflows int64.
  function Atoi(s: string): Option<nat>
    requires AllDigits(s)
  {
    if Value(s) < 0x8000_0000_0000_0000 then Some(Value(s)) else None
  }

  lemma {:induction false} DigitsValue(n: nat)
    ensures AllDigits(Digits(n)) && Value(Digits(n)) == n
  {
    if n >= 10 {
      DigitsValue(n / 10);
      var s := Digits(n);
      assert s[..|s| - 1] == Digits(n / 10);
    } else {
      assert Digits(n)[..0] == "";
    }
  }

  // ---- references ----

  // A reference as it stands in a text: its archive id and its size in digits.
  datatype Reference = Reference(id: string, size: string)

  predicate Valid(r: Reference) {
    r.id != "" && (forall i :: 0 <= i < |r.id| ==> IsIdChar(r.id[i])) && AllDigits(r.size)
  }

  function Uri(r: Reference): string {
    SCHEME + r.id
  }

  function Marker(uri: string, size: string): string {
    HEAD + uri + BYTES + size + "]"
  }

  function Text(r: Reference): string {
    Marker(Uri(r), r.size)
  }

  function FormatReference(uri: string, size: int): string {
    Marker(uri, Digits(if size < 0 then 0 else size))
  }

  // The ASCII codes that an id and a size are made of.
  lemma CharCodes(c: char)
    ensures IsDigit(c) <==> 48 <= c as int <= 57
    ensures IsIdChar(c) <==>
      65 <= c as int <= 90 || 97 <= c as int <= 122 || 48 <= c as int <= 57 || c as int == 95 || c as int == 45
  {
  }

  // The letter of the format, and sizes below zero written as zero.
  lemma FormatIs(r: Reference, uri: string, size: int)
    ensures Text(r) == "[context-chunk status=unchanged uri=local-archive://" + r.id + " bytes=" + r.size + "]"
    ensures size >= 0 ==>
      FormatReference(uri, size) == "[context-chunk status=unchanged uri=" + uri + " bytes=" + Digits(size) + "]"
    ensures size < 0 ==> FormatReference(uri, size) == "[context-chunk status=unchanged uri=" + uri + " bytes=0]"
  {
    assert HEAD + SCHEME == "[context-chunk status=unchanged uri=local-archive://";
    assert BYTES + "0" + "]" == " bytes=0]";
    assert size < 0 ==> FormatReference(uri, size) == HEAD + uri + (BYTES + "0" + "]");
  }

  // Length of the longest prefix whose characters satisfy p.
  function Run(t: string, p: char -> bool): (n: nat)
    ensures n <= |t|
    ensures forall k :: 0 <= k < n ==> p(t[k])
    ensures n < |t| ==> !p(t[n])
  {
    if t != "" && p(t[0]) then 1 + Run(t[1..], p) else 0
  }

  // The regular expression anchored at the start of t, with its two fixed parts as
  // parameters: both repetitions are greedy and the character after each cannot
  // continue it, so a match is unique.
  function MatchWith(head: string, mid: string, t: string): Option<Reference> {
    if !(head <= t) then None
    else
      var u := t[|head|..];
      var v := u[Run(u, IsIdChar)..];
      if |v| == |u| || !(mid <= v) then None
      else
        var w := v[|mid|..];
        var rest := w[Run(w, IsDigit)..];
        if |rest| == |w| || rest == "" || rest[0] != ']' then None
        else Some(Reference(u[..|u| - |v|], w[..|w| - |rest|]))
  }

  function MatchPrefix(t: string): Option<Reference> {
    MatchWith(HEAD + SCHEME, BYTES, t)
  }

  lemma {:induction false} RunOf(x: string, y: string, p: char -> bool)
    requires forall k :: 0 <= k < |x| ==> p(x[k])
    requires y == "" || !p(y[0])
    ensures Run(x + y, p) == |x|
  {
    if x == "" {
      assert x + y == y;
    } else {
      assert (x + y)[1..] == x[1..] + y;
      RunOf(x[1..], y, p);
    }
  }

  lemma Cut(s: string, n: nat)
    requires n <= |s|
    ensures s == s[..n] + s[n..]
  {
  }

  lemma CutPrefix(s: string, head: string)
    requires head <= s
    ensures s == head + s[|head|..]
  {
  }

  lemma Behind(head: string, s: string)
    ensures head <= head + s && (head + s)[|head|..] == s && (head + s)[..|head|] == head
  {
  }

  lemma MatchParts(head: string, mid: string, r: Reference, rest: string)
    requires Valid(r) && mid != "" && !IsIdChar(mid[0])
    ensures MatchWith(head, mid, head + (r.id + (mid + (r.size + ("]" + rest))))) == Some(r)
  {
    var w := r.size + ("]" + rest);
    var v := mid + w;
    var u := r.id + v;
    Behind(head, u);
    Behind(r.id, v);
    Behind(mid, w);
    Behind(r.size, "]" + rest);
    assert !IsDigit(']') && v[0] == mid[0] && |v| < |u|;
    hide IsIdChar, IsDigit;
    RunOf(r.id, v, IsIdChar);
    RunOf(r.size, "]" + rest, IsDigit);
    hide Run;
  }

  // Where a match is cut.
  lemma MatchedAt(head: string, mid: string, t: string) returns (n: nat, k: nat)
    requires MatchWith(head, mid, t).Some?
    ensures head <= t && n <= |t| - |head| && mid <= t[|head|..][n..]
    ensures var w := t[|head|..][n..][|mid|..];
      k < |w| && w[k] == ']' && MatchWith(head, mid, t) == Some(Reference(t[|head|..][..n], w[..k]))
    ensures Valid(MatchWith(head, mid, t).value)
  {
    hide IsIdChar, IsDigit, Run;
    n := Run(t[|head|..], IsIdChar);
    k := Run(t[|head|..][n..][|mid|..], IsDigit);
  }

  lemma MatchedParts(head: string, mid: string, t: string) returns (rest: string)
    requires MatchWith(head, mid, t).Some?
    ensures var r := MatchWith(head, mid, t).value;
      Valid(r) && t == head + (r.id + (mid + (r.size + ("]" + rest))))
  {
    hide MatchWith, Valid;
    var n, k := MatchedAt(head, mid, t);
    var u := t[|head|..];
    var v := u[n..];
    var w := v[|mid|..];
    rest := w[k..][1..];
    CutPrefix(t, head);
    Cut(u, n);
    CutPrefix(v, mid);
    Cut(w, k);
    assert w[k..] == "]" + rest;
  }

  lemma Regroup(a: string, b: string, c: string, d: string, e: string, f: string, g: string)
    ensures a + (b + c) + d + e + f + g == (a + b) + (c + (d + (e + (f + g))))
  {
  }

  // A reference reads back, whatever follows it.
  lemma MatchText(r: Reference, rest: string)
    requires Valid(r)
    ensures MatchPrefix(Text(r) + rest) == Some(r)
  {
    Regroup(HEAD, SCHEME, r.id, BYTES, r.size, "]", rest);
    MatchParts(HEAD + SCHEME, BYTES, r, rest);
  }

  // And a match is such a reference.
  lemma MatchedText(t: string) returns (rest: string)
    requires MatchPrefix(t).Some?
    ensures Valid(MatchPrefix(t).value) && t == Text(MatchPrefix(t).value) + rest
  {
    rest := MatchedParts(HEAD + SCHEME, BYTES, t);
    var r := MatchPrefix(t).value;
    Regroup(HEAD, SCHEME, r.id, BYTES, r.size, "]", rest);
  }

  // ---- texts with references in them ----

  // Literal stretches alternating with references.
  datatype Doc = End(tail: string) | Part(literal: string, ref: Reference, rest: Doc)

  function Print(d: Doc): string {
    match d
    case End(tail) => tail
    case Part(literal, ref, rest) => literal + (Text(ref) + Print(rest))
  }

  // No reference starts anywhere in the stretch.
  predicate Plain(s: string) {
    s == "" || (MatchPrefix(s).None? && Plain(s[1..]))
  }

  predicate WellFormed(d: Doc) {
    match d
    case End(tail) => Plain(tail)
    case Part(literal, ref, rest) => Plain(literal) && Valid(ref) && WellFormed(rest)
  }

  function Prepend(c: char, d: Doc): Doc {
    match d
    case End(tail) => End([c] + tail)
    case Part(literal, ref, rest) => Part([c] + literal, ref, rest)
  }

  // The leftmost, non-overlapping matches of a text, in one pass.
  function Parse(t: string): Doc
    decreases |t|
  {
    if t == "" then End("")
    else
      match MatchPrefix(t)
      case Some(r) => Part("", r, if |Text(r)| <= |t| then Parse(t[|Text(r)|..]) else End(""))
      case None => Prepend(t[0], Parse(t[1..]))
  }

  lemma OneBracket(r: Reference, i: nat)
    requires Valid(r) && 0 < i < |Text(r)|
    ensures Text(r)[i] != '['
  {
    var t := Text(r);
    var a := |HEAD + SCHEME|;
    assert t == HEAD + SCHEME + r.id + BYTES + r.size + "]";
    if i < a {
      assert t[i] == (HEAD + SCHEME)[i];
      NoBracketInHead(i);
    } else if i < a + |r.id| {
      assert t[i] == r.id[i - a];
    } else if i < a + |r.id| + |BYTES| {
      assert t[i] == BYTES[i - a - |r.id|];
    } else if i < a + |r.id| + |BYTES| + |r.size| {
      assert t[i] == r.size[i - a - |r.id| - |BYTES|];
    }
  }

  lemma NoBracketInHead(i: nat)
    requires 0 < i < |HEAD + SCHEME|
    ensures (HEAD + SCHEME)[i] != '['
  {
  }

  // A reference that starts in a plain stretch would have to end in it, since the next
  // reference begins with a bracket and no reference has a second one.
  lemma NoMatchAcross(s: string, x: string)
    requires s != "" && MatchPrefix(s).None?
    requires x == "" || x[0] == '['
    ensures MatchPrefix(s + x).None?
  {
    hide MatchPrefix, Text, Valid;
    if MatchPrefix(s + x).Some? {
      var r := MatchPrefix(s + x).value;
      var rest := MatchedText(s + x);
      if |Text(r)| > |s| {
        assert Text(r)[|s|] == (Text(r) + rest)[|s|] == (s + x)[|s|] == x[0];
        OneBracket(r, |s|);
      }
      var n := |Text(r)|;
      assert s[..n] == (s + x)[..n] == (Text(r) + rest)[..n] == Text(r);
      assert s == Text(r) + s[n..];
      MatchText(r, s[n..]);
      assert false;
    }
  }

  lemma {:induction false} ParsePlain(s: string, d: Doc)
    requires Plain(s) && (d.Part? ==> d.literal == "") && (d.End? ==> d.tail == "")
    requires Parse(Print(d)) == d
    requires Print(d) == "" || Print(d)[0] == '['
    ensures Parse(s + Print(d)) == match d case End(_) => End(s) case Part(_, r, rest) => Part(s, r, rest)
  {
    hide MatchPrefix, Text, Print;
    if s == "" {
      assert s + Print(d) == Print(d);
    } else {
      NoMatchAcross(s, Print(d));
      ParsePlain(s[1..], d);
      assert (s + Print(d))[1..] == s[1..] + Print(d);
    }
  }

  lemma StartsWithBracket(r: Reference)
    ensures Text(r) != "" && Text(r)[0] == '['
  {
  }

  // Printing a document and scanning it gives the document back.
  lemma {:induction false} ParsePrint(d: Doc)
    requires WellFormed(d)
    ensures Parse(Print(d)) == d
  {
    hide MatchPrefix, Text;
    match d
    case End(tail) =>
      ParsePlain(tail, End(""));
      assert tail + "" == tail;
    case Part(literal, r, rest) =>
      StartsWithBracket(r);
      ParsePrint(rest);
      var t := Text(r) + Print(rest);
      MatchText(r, Print(rest));
      assert t[|Text(r)|..] == Print(rest);
      assert Print(Part("", r, rest)) == t;
      assert t[0] == '[';
      ParsePlain(literal, Part("", r, rest));
  }

  lemma {:induction false} PlainStart(s: string, x: string)
    requires MatchPrefix(s + x).None?
    ensures MatchPrefix(s).None?
  {
    hide MatchPrefix, Text, Valid;
    if MatchPrefix(s).Some? {
      var r := MatchPrefix(s).value;
      var rest := MatchedText(s);
      assert s + x == Text(r) + (rest + x);
      MatchText(r, rest + x);
    }
  }

  // Every text is the print of exactly the document scanned from it.
  lemma {:induction false} PrintParse(t: string)
    ensures Print(Parse(t)) == t && WellFormed(Parse(t))
    decreases |t|
  {
    hide MatchPrefix, Text, Valid;
    if t != "" {
      match MatchPrefix(t)
      case Some(r) =>
        var rest := MatchedText(t);
        StartsWithBracket(r);
        assert t[|Text(r)|..] == rest;
        PrintParse(rest);
      case None =>
        PrintParse(t[1..]);
        var d := Parse(t[1..]);
        assert t == [t[0]] + t[1..];
        match d
        case End(tail) =>
          assert [t[0]] + tail == t;
          assert ([t[0]] + tail)[1..] == tail;
        case Part(literal, r, rest) =>
          var s := [t[0]] + literal;
          assert t == s + (Text(r) + Print(rest));
          PlainStart(s, Text(r) + Print(rest));
          assert s[1..] == literal;
    }
  }

  // ---- decoding ----

  type Expander = string -> Option<string>

  // What a reference decodes to: its chunk, unless that is unknown or has another size
  // than the reference says. A size beyond int64 is not checked.
  function Piece(r: Reference, expand: Expander): Option<string>
    requires AllDigits(r.size)
  {
    match expand(Uri(r))
    case None => None
    case Some(body) => if Atoi(r.size).Some? && |body| != Atoi(r.size).value then None else Some(body)
  }

  function Render(d: Doc, expand: Expander): string
    requires WellFormed(d)
  {
    match d
    case End(tail) => tail
    case Part(literal, r, rest) =>
      literal + ((if Piece(r, expand).Some? then Piece(r, expand).value else Text(r)) + Render(rest, expand))
  }

  predicate Expands(d: Doc, expand: Expander)
    requires WellFormed(d)
  {
    d.Part? && (Piece(d.ref, expand).Some? || Expands(d.rest, expand))
  }

  lemma RenderPrepend(c: char, d: Doc, expand: Expander)
    requires WellFormed(d) && WellFormed(Prepend(c, d))
    ensures Render(Prepend(c, d), expand) == [c] + Render(d, expand)
    ensures Expands(Prepend(c, d), expand) == Expands(d, expand)
  {
  }

  lemma RenderStep(t: string, expand: Expander)
    requires t != ""
    ensures WellFormed(Parse(t)) && WellFormed(Parse(t[1..]))
    ensures MatchPrefix(t).None? ==>
      Render(Parse(t), expand) == [t[0]] + Render(Parse(t[1..]), expand)
      && Expands(Parse(t), expand) == Expands(Parse(t[1..]), expand)
    ensures MatchPrefix(t).Some? ==>
      var r := MatchPrefix(t).value;
      Valid(r) && Text(r) <= t && WellFormed(Parse(t[|Text(r)|..]))
      && Render(Parse(t), expand) ==
        (if Piece(r, expand).Some? then Piece(r, expand).value else Text(r)) + Render(Parse(t[|Text(r)|..]), expand)
      && Expands(Parse(t), expand) == (Piece(r, expand).Some? || Expands(Parse(t[|Text(r)|..]), expand))
  {
    PrintParse(t);
    PrintParse(t[1..]);
    match MatchPrefix(t)
    case None =>
      RenderPrepend(t[0], Parse(t[1..]), expand);
    case Some(r) =>
      var rest := MatchedText(t);
      PrintParse(t[|Text(r)|..]);
      assert Parse(t) == Part("", r, Parse(t[|Text(r)|..]));
  }

  lemma RenderEmpty()
    ensures WellFormed(Parse(""))
    ensures forall expand :: Render(Parse(""), expand) == "" && !Expands(Parse(""), expand)
  {
  }

  // The first reference of a text, where the archive knows its chunk: the chunk is put in
  // its place if it has the stated size, or if that does not fit 64 bits; otherwise the
  // reference stays as it is written.
  lemma KnownChunk(a: string, r: Reference, rest: Doc, expand: Expander, body: string)
    requires WellFormed(Part(a, r, rest)) && expand("local-archive://" + r.id) == Some(body)
    ensures |body| == Value(r.size) || Value(r.size) >= 0x8000_0000_0000_0000 ==>
      Render(Part(a, r, rest), expand) == a + (body + Render(rest, expand)) && Expands(Part(a, r, rest), expand)
    ensures |body| != Value(r.size) < 0x8000_0000_0000_0000 ==>
      Render(Part(a, r, rest), expand) == a + (Text(r) + Render(rest, expand))
      && Expands(Part(a, r, rest), expand) == Expands(rest, expand)
  {
  }

  // Where the archive does not know it, the reference stays.
  lemma UnknownChunk(a: string, r: Reference, rest: Doc, expand: Expander)
    requires WellFormed(Part(a, r, rest)) && expand("local-archive://" + r.id).None?
    ensures Render(Part(a, r, rest), expand) == a + (Text(r) + Render(rest, expand))
    ensures Expands(Part(a, r, rest), expand) == Expands(rest, expand)
  {
  }

  // So does a text that holds no reference.
  lemma NoChunk(text: string, expand: Expander)
    requires Plain(text)
    ensures Render(End(text), expand) == text && !Expands(End(text), expand)
  {
  }

  // One pass over the text: every reference it holds is replaced by its chunk or stays
  // byte for byte, and `changed` says whether any was replaced.
  method DecodeReferences(text: string, expand: Option<Expander>) returns (out: string, changed: bool)
    ensures WellFormed(Parse(text))
    ensures expand.None? ==> out == text && !changed
    ensures expand.Some? ==> out == Render(Parse(text), expand.value) && changed == Expands(Parse(text), expand.value)
  {
    hide MatchPrefix, Text, Piece, Render, Expands, Valid, WellFormed;
    PrintParse(text);
    RenderEmpty();
    if text == "" || expand.None? {
      return text, false;
    }
    changed := false;
    out := "";
    var rest := text;
    while rest != ""
      invariant WellFormed(Parse(rest))
      invariant out + Render(Parse(rest), expand.value) == Render(Parse(text), expand.value)
      invariant changed || Expands(Parse(rest), expand.value) <==> Expands(Parse(text), expand.value)
      decreases |rest|
    {
      RenderStep(rest, expand.value);
      match MatchPrefix(rest)
      case None =>
        out := out + [rest[0]];
        rest := rest[1..];
      case Some(r) =>
        var piece := Piece(r, expand.value);
        if piece.Some? {
          changed := true;
          out := out + piece.value;
        } else {
          out := out + Text(r);
        }
        rest := rest[|Text(r)|..];
    }
  }

  // ---- decoding undoes encoding ----

  // A text with chunks of content in it, before any chunk is replaced by a reference.
  datatype Source = Last(tail: string) | Chunk(literal: string, id: string, body: string, next: Source)

  function Content(s: Source): string {
    match s
    case Last(tail) => tail
    case Chunk(literal, _, body, next) => literal + (body + Content(next))
  }

  function Encode(s: Source): string {
    match s
    case Last(tail) => tail
    case Chunk(literal, id, body, next) => literal + (FormatReference(SCHEME + id, |body|) + Encode(next))
  }

  function DocOf(s: Source): Doc {
    match s
    case Last(tail) => End(tail)
    case Chunk(literal, id, body, next) => Part(literal, Reference(id, Digits(|body|)), DocOf(next))
  }

  // Literal stretches hold no reference, ids are well formed, and the archive still has
  // every chunk.
  predicate Encodable(s: Source, expand: Expander) {
    match s
    case Last(tail) => Plain(tail)
    case Chunk(literal, id, body, next) =>
      Plain(literal) && id != "" && (forall i :: 0 <= i < |id| ==> IsIdChar(id[i]))
      && expand(SCHEME + id) == Some(body) && Encodable(next, expand)
  }

  lemma {:induction false} EncodedDoc(s: Source, expand: Expander)
    requires Encodable(s, expand)
    ensures WellFormed(DocOf(s)) && Print(DocOf(s)) == Encode(s)
    ensures Render(DocOf(s), expand) == Content(s)
    ensures Expands(DocOf(s), expand) <==> s.Chunk?
  {
    match s
    case Last(_) =>
    case Chunk(_, id, body, next) =>
      DigitsValue(|body|);
      EncodedDoc(next, expand);
  }

  // Decoding gives back the content, chunks included, whatever the chunks contain.
  lemma DecodeUndoesEncode(s: Source, expand: Expander)
    requires Encodable(s, expand)
    ensures WellFormed(Parse(Encode(s)))
    ensures Render(Parse(Encode(s)), expand) == Content(s)
    ensures Expands(Parse(Encode(s)), expand) <==> s.Chunk?
  {
    EncodedDoc(s, expand);
    ParsePrint(DocOf(s));
  }
}
