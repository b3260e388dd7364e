// strconv.Quote against the string literals that encoding/json reads. Which characters
// above U+007F count as printable is a parameter, as the Unicode tables are.
module GoQuote {
  import opened Strs

  // unicode.IsPrint above U+007F.
  type Printable = char -> bool

  const HEX := "0123456789abcdef"

  predicate IsPrint(printable: Printable, c: char) {
    if c < '\U{0080}' then ' ' <= c <= '~' else printable(c)
  }

  // The letter of the short escapes.
  function Short(c: char): Option<char> {
    if c == '"' || c == '\\' then Some(c)
    else if c == '\U{0007}' then Some('a')
    else if c == '\U{0008}' then Some('b')
    else if c == '\U{000C}' then Some('f')
    else if c == '\n' then Some('n')
    else if c == '\r' then Some('r')
    else if c == '\t' then Some('t')
    else if c == '\U{000B}' then Some('v')
    else None
  }

  function Hex2(n: nat): string
    requires n < 0x100
  {
    [HEX[n / 16], HEX[n % 16]]
  }

  function Hex4(n: nat): string
    requires n < 0x1_0000
  {
    Hex2(n / 0x100) + Hex2(n % 0x100)
  }

  function EscapeChar(printable: Printable, c: char): string {
    if Short(c).Some? then ['\\', Short(c).value]
    else if IsPrint(printable, c) then [c]
    else if c < '\U{0080}' then "\\x" + Hex2(c as int)
    else if c as int < 0x1_0000 then "\\u" + Hex4(c as int)
    else "\\U" + (Hex4(c as int / 0x1_0000) + Hex4(c as int % 0x1_0000))
  }

  function Escape(printable: Printable, s: string): string {
    if s == "" then "" else EscapeChar(printable, s[0]) + Escape(printable, s[1..])
  }

  function Quote(printable: Printable, s: string): string {
    "\"" + Escape(printable, s) + "\""
  }

  // ---- the reader ----

  function DigitValue(c: char): Option<nat> {
    if '0' <= c <= '9' then Some(c as int - '0' as int)
    else if 'a' <= c <= 'f' then Some(c as int - 'a' as int + 10)
    else if 'A' <= c <= 'F' then Some(c as int - 'A' as int + 10)
    else None
  }

  // The number that four hexadecimal digits at the start of s give.
  function Read4(s: string): (n: Option<nat>)
    ensures n.Some? ==> n.value < 0x1_0000 && |s| >= 4
  {
    if |s| < 4 then None
    else
      var a, b, c, d := DigitValue(s[0]), DigitValue(s[1]), DigitValue(s[2]), DigitValue(s[3]);
      if a.None? || b.None? || c.None? || d.None? then None
      else Some(((a.value * 16 + b.value) * 16 + c.value) * 16 + d.value)
  }

  predicate IsSurrogate(n: nat) {
    0xD800 <= n < 0xE000
  }

  // The low surrogate that an escape right behind gives, if it is one.
  function LowHalf(s: string): Option<nat> {
    if "\\u" <= s && Read4(s[2..]).Some? && 0xDC00 <= Read4(s[2..]).value < 0xE000 then Read4(s[2..]) else None
  }

  // The character of a \u escape and how many characters behind the four digits it takes:
  // a pair of surrogates is one character, a lone one is replaced.
  function CodePoint(n: nat, rest: string): (r: (char, nat))
    requires n < 0x1_0000
    ensures r.1 <= |rest|
  {
    if !IsSurrogate(n) then (n as char, 0)
    else if n < 0xDC00 && LowHalf(rest).Some? then
      ((0x1_0000 + (n - 0xD800) * 0x400 + (LowHalf(rest).value - 0xDC00)) as char, 6)
    else ('\U{FFFD}', 0)
  }

  // What a JSON string allows after a backslash, but for u.
  function Unescape(c: char): Option<char> {
    if c == '"' || c == '\\' || c == '/' then Some(c)
    else if c == 'b' then Some('\U{0008}')
    else if c == 'f' then Some('\U{000C}')
    else if c == 'n' then Some('\n')
    else if c == 'r' then Some('\r')
    else if c == 't' then Some('\t')
    else None
  }

  predicate JsonBlank(s: string) {
    forall i :: 0 <= i < |s| ==> s[i] == ' ' || s[i] == '\t' || s[i] == '\n' || s[i] == '\r'
  }

  function Cons(c: char, rest: Option<string>): Option<string> {
    if rest.None? then None else Some([c] + rest.value)
  }

  // The rest of a string literal, up to its closing quote and white space after it.
  function ReadRest(s: string): Option<string>
    decreases |s|
  {
    if s == "" || s[0] < ' ' then None
    else if s[0] == '"' then (if JsonBlank(s[1..]) then Some("") else None)
    else if s[0] != '\\' then Cons(s[0], ReadRest(s[1..]))
    else if |s| == 1 then None
    else if s[1] == 'u' then
      if Read4(s[2..]).None? then None
      else
        var point := CodePoint(Read4(s[2..]).value, s[6..]);
        Cons(point.0, ReadRest(s[6 + point.1..]))
    else if Unescape(s[1]).None? then None
    else Cons(Unescape(s[1]).value, ReadRest(s[2..]))
  }

  function SkipBlanks(s: string): string {
    if s != "" && JsonBlank(s[..1]) then SkipBlanks(s[1..]) else s
  }

  function ReadString(s: string): Option<string> {
    var t := SkipBlanks(s);
    if t != "" && t[0] == '"' then ReadRest(t[1..]) else None
  }

  // ---- the escapes by code point ----

  lemma ShortEscapes(printable: Printable)
    ensures EscapeChar(printable, '"') == "\\\"" && EscapeChar(printable, '\\') == "\\\\"
    ensures EscapeChar(printable, 7 as char) == "\\a" && EscapeChar(printable, 8 as char) == "\\b"
    ensures EscapeChar(printable, 9 as char) == "\\t" && EscapeChar(printable, 10 as char) == "\\n"
    ensures EscapeChar(printable, 11 as char) == "\\v" && EscapeChar(printable, 12 as char) == "\\f"
    ensures EscapeChar(printable, 13 as char) == "\\r"
  {
  }

  // What has no short escape is itself if it is printable; otherwise it is written in two,
  // four or eight hexadecimal digits.
  lemma LongEscapes(printable: Printable, c: char)
    requires Short(c).None?
    ensures var n := c as int; var e := EscapeChar(printable, c);
      && (32 <= n <= 126 || (n >= 128 && printable(c)) ==> e == [c])
      && (n < 32 || n == 127 ==> |e| == 4 && e[..2] == "\\x" && Read4("00" + e[2..]) == Some(n))
      && (128 <= n < 0x1_0000 && !printable(c) ==> |e| == 6 && e[..2] == "\\u" && Read4(e[2..]) == Some(n))
      && (n >= 0x1_0000 && !printable(c) ==>
            && |e| == 10 && e[..2] == "\\U"
            && Read4(e[2..6]) == Some(n / 0x1_0000) && Read4(e[6..]) == Some(n % 0x1_0000))
  {
    hide Hex4, Read4, Short;
    var n, e := c as int, EscapeChar(printable, c);
    if n < 32 || n == 127 {
      ByteReads(n);
      assert e == "\\x" + Hex2(n) && e[2..] == Hex2(n) && |Hex2(n)| == 2;
    } else if 128 <= n < 0x1_0000 && !printable(c) {
      Hex4Length(n);
      Hex4Reads(n, "");
      assert e[2..] == Hex4(n) + "";
    } else if n >= 0x1_0000 && !printable(c) {
      Hex4Length(n / 0x1_0000);
      Hex4Length(n % 0x1_0000);
      Hex4Reads(n / 0x1_0000, "");
      Hex4Reads(n % 0x1_0000, "");
      assert e[2..6] == Hex4(n / 0x1_0000) + "" && e[6..] == Hex4(n % 0x1_0000) + "";
    }
  }

  lemma ByteReads(n: nat)
    requires n < 0x80
    ensures Read4("00" + Hex2(n)) == Some(n)
  {
    hide DigitValue;
    var s := "00" + Hex2(n);
    assert s[0] == s[1] == HEX[0] && s[2] == HEX[n / 16] && s[3] == HEX[n % 16];
    HexDigit(0);
    HexDigit(n / 16);
    HexDigit(n % 16);
  }

  // Digits of either case.
  lemma DigitValues(c: char)
    ensures 48 <= c as int <= 57 ==> DigitValue(c) == Some(c as int - 48)
    ensures 65 <= c as int <= 70 ==> DigitValue(c) == Some(c as int - 55)
    ensures 97 <= c as int <= 102 ==> DigitValue(c) == Some(c as int - 87)
    ensures DigitValue(c).Some? ==> 48 <= c as int <= 57 || 65 <= c as int <= 70 || 97 <= c as int <= 102
  {
  }

  // The short escapes of JSON.
  lemma UnescapeCodes(c: char)
    ensures Unescape('"') == Some('"') && Unescape('\\') == Some('\\') && Unescape('/') == Some('/')
    ensures Unescape('b') == Some(8 as char) && Unescape('f') == Some(12 as char) && Unescape('n') == Some(10 as char)
    ensures Unescape('r') == Some(13 as char) && Unescape('t') == Some(9 as char)
    ensures Unescape(c).Some? ==> c in "\"\\/bfnrt"
  {
  }

  // White space around a literal is skipped, and nothing else; control characters in it
  // are refused.
  lemma BlankCodes(s: string)
    ensures JsonBlank(s) <==> forall i :: 0 <= i < |s| ==> s[i] as int in {9, 10, 13, 32}
    ensures ReadRest("\"" + s) == if JsonBlank(s) then Some("") else None
    ensures s != "" && s[0] as int < 32 ==> ReadRest(s) == None
  {
    assert ("\"" + s)[1..] == s;
  }

  lemma {:induction false} BlanksBefore(front: string, t: string)
    requires JsonBlank(front) && t != "" && t[0] == '"'
    ensures ReadString(front + t) == ReadRest(t[1..])
  {
    if front == "" {
      assert front + t == t && t[..1][0] == t[0];
    } else {
      assert (front + t)[1..] == front[1..] + t && (front + t)[..1] == front[..1];
      BlanksBefore(front[1..], t);
    }
  }

  lemma NoLiteral(s: string)
    ensures SkipBlanks(s) == "" || SkipBlanks(s)[0] != '"' ==> ReadString(s) == None
  {
  }

  // A pair of UTF-16 surrogates is read as the code point it encodes, and a lone one as
  // the replacement character.
  lemma SurrogatesRead(point: nat, rest: string)
    requires 0x1_0000 <= point < 0x11_0000
    ensures var high, low := 0xD800 + (point - 0x1_0000) / 0x400, 0xDC00 + (point - 0x1_0000) % 0x400;
      CodePoint(high, "\\u" + Hex4(low) + rest) == (point as char, 6)
  {
    hide Hex4, Read4;
    var low := 0xDC00 + (point - 0x1_0000) % 0x400;
    var s := "\\u" + Hex4(low) + rest;
    Hex4Length(low);
    Hex4Reads(low, rest);
    assert s[2..] == Hex4(low) + rest && s[..2] == "\\u";
  }

  lemma LoneSurrogate(n: nat, rest: string)
    requires 0xD800 <= n < 0xE000 && (n >= 0xDC00 || !("\\u" <= rest))
    ensures CodePoint(n, rest) == (0xFFFD as char, 0)
  {
  }

  // ---- reading what was quoted ----

  // The characters that Quote escapes in a way JSON knows, or not at all: not the bell and
  // other escapes of Go's own, nor what needs eight digits.
  predicate Shared(printable: Printable, c: char) {
    IsPrint(printable, c) || '\U{0080}' <= c < '\U{10000}'
    || c == '\U{0008}' || c == '\U{000C}' || c == '\n' || c == '\r' || c == '\t'
  }

  predicate AllShared(printable: Printable, s: string) {
    forall i :: 0 <= i < |s| ==> Shared(printable, s[i])
  }

  lemma ShortUnescapes(printable: Printable, c: char)
    requires Shared(printable, c) && Short(c).Some?
    ensures Unescape(Short(c).value) == Some(c) && Short(c).value != 'u'
  {
  }

  lemma HexDigit(d: nat)
    requires d < 16
    ensures DigitValue(HEX[d]) == Some(d)
  {
  }

  lemma Hex4Reads(n: nat, rest: string)
    requires n < 0x1_0000
    ensures Read4(Hex4(n) + rest) == Some(n)
  {
    hide DigitValue;
    var s := Hex4(n) + rest;
    var a, b := n / 0x100, n % 0x100;
    assert s[0] == HEX[a / 16] && s[1] == HEX[a % 16] && s[2] == HEX[b / 16] && s[3] == HEX[b % 16];
    HexDigit(a / 16);
    HexDigit(a % 16);
    HexDigit(b / 16);
    HexDigit(b % 16);
  }

  lemma PointEscapeReads(c: char, rest: string)
    requires 0x80 <= c as int < 0x1_0000
    ensures ReadRest("\\u" + Hex4(c as int) + rest) == Cons(c, ReadRest(rest))
  {
    hide Hex4, Read4;
    Hex4Length(c as int);
    var s := "\\u" + Hex4(c as int) + rest;
    assert s[0] == '\\' && s[1] == 'u' && s[2..] == Hex4(c as int) + rest && s[6..] == rest;
    Hex4Reads(c as int, rest);
    assert !IsSurrogate(c as int);
  }

  lemma Hex4Length(n: nat)
    requires n < 0x1_0000
    ensures |Hex4(n)| == 4
  {
  }

  lemma ReadOne(printable: Printable, c: char, rest: string)
    requires Shared(printable, c)
    ensures ReadRest(EscapeChar(printable, c) + rest) == Cons(c, ReadRest(rest))
  {
    hide Hex4, Hex2, Read4, CodePoint;
    var s := EscapeChar(printable, c) + rest;
    if Short(c).Some? {
      assert s[0] == '\\' && s[1] == Short(c).value && s[2..] == rest;
      ShortUnescapes(printable, c);
    } else if IsPrint(printable, c) {
      assert s[0] == c && s[1..] == rest;
    } else {
      PointEscapeReads(c, rest);
    }
  }

  lemma NotRead(printable: Printable, c: char, rest: string)
    requires !Shared(printable, c)
    ensures ReadRest(EscapeChar(printable, c) + rest) == None
  {
    hide Hex4, Hex2;
    var s := EscapeChar(printable, c) + rest;
    assert s[0] == '\\' && s[1] == EscapeChar(printable, c)[1];
  }

  lemma {:induction false} EscapeReads(printable: Printable, s: string)
    ensures ReadRest(Escape(printable, s) + "\"") == if AllShared(printable, s) then Some(s) else None
  {
    hide EscapeChar, Shared;
    if s == "" {
      assert ("\"")[1..] == "";
      assert Escape(printable, s) + "\"" == "\"";
    } else {
      var rest := Escape(printable, s[1..]) + "\"";
      assert Escape(printable, s) + "\"" == EscapeChar(printable, s[0]) + rest;
      EscapeReads(printable, s[1..]);
      assert s == [s[0]] + s[1..];
      hide ReadRest;
      if Shared(printable, s[0]) {
        ReadOne(printable, s[0], rest);
        assert AllShared(printable, s) <==> AllShared(printable, s[1..]) by {
          assert forall i :: 0 < i < |s| ==> s[i] == s[1..][i - 1];
        }
      } else {
        NotRead(printable, s[0], rest);
      }
    }
  }

  // JSON reads a quoted string back exactly when no character of it needs an escape that
  // only Go knows; then the reading fails.
  lemma QuoteReadsIff(printable: Printable, s: string)
    ensures ReadString(Quote(printable, s)) == if AllShared(printable, s) then Some(s) else None
  {
    var t := Quote(printable, s);
    assert t[1..] == Escape(printable, s) + "\"";
    assert t[..1] == "\"" && !JsonBlank(t[..1]) by {
      assert t[..1][0] == '"';
    }
    EscapeReads(printable, s);
  }
}
