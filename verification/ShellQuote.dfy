// Shell quoting (cmd/slimference/proxy_cmd.go) against a reader of POSIX.1-2017
// Shell Command Language words: section 2.2 (Quoting) and section 2.3 (Token
// Recognition).
module ShellQuote {
  import opened Strs

  // ---- the reader ----

  datatype Mode = Unquoted | Single | Double

  // Unquoted characters that are operators, start an expansion, or end the command.
  predicate IsSpecial(c: char) {
    c == '|' || c == '&' || c == ';' || c == '<' || c == '>' || c == '(' || c == ')' || c == '$' || c == '`'
    || c == '*' || c == '?' || c == '[' || c == '~' || c == '\n'
  }

  function Append(word: Option<string>, c: char): Option<string> {
    Some(if word.Some? then word.value + [c] else [c])
  }

  function Open(word: Option<string>): Option<string> {
    Some(if word.Some? then word.value else "")
  }

  function Cons(word: Option<string>, words: Option<seq<string>>): Option<seq<string>> {
    if word.None? || words.None? then words else Some([word.value] + words.value)
  }

  // The words of a simple command after quote removal, given the word read so far; None
  // if some token is not a plain word (an operator, a comment, anything the shell would
  // expand) or a quotation is not closed.
  function Read(s: string, mode: Mode, word: Option<string>): Option<seq<string>>
    decreases |s|
  {
    if s == "" then
      if mode.Unquoted? then Cons(word, Some([])) else None
    else
      var c := s[0];
      match mode
      case Unquoted =>
        if c == ' ' || c == '\t' then Cons(word, Read(s[1..], Unquoted, None))
        else if c == '\'' then Read(s[1..], Single, Open(word))
        else if c == '"' then Read(s[1..], Double, Open(word))
        else if c == '\\' then
          if |s| == 1 then None
          else if s[1] == '\n' then Read(s[2..], Unquoted, word)
          else Read(s[2..], Unquoted, Append(word, s[1]))
        else if IsSpecial(c) || (c == '#' && word.None?) then None
        else Read(s[1..], Unquoted, Append(word, c))
      case Single =>
        if c == '\'' then Read(s[1..], Unquoted, word)
        else Read(s[1..], Single, Append(word, c))
      case Double =>
        if c == '"' then Read(s[1..], Unquoted, word)
        else if c == '$' || c == '`' then None
        else if c == '\\' && |s| > 1 && (s[1] == '$' || s[1] == '`' || s[1] == '"' || s[1] == '\\') then
          Read(s[2..], Double, Append(word, s[1]))
        else if c == '\\' && |s| > 1 && s[1] == '\n' then Read(s[2..], Double, word)
        else Read(s[1..], Double, Append(word, c))
  }

  lemma SpecialAre(c: char)
    ensures IsSpecial(c) <==> c in "|&;<>()$`*?[~\n"
  {
  }

  // Blanks end a word; a backslash outside quotes takes the next character as it is, but
  // for a newline, which it removes; a special character is refused, and a number sign
  // starts a comment only where a word could start.
  lemma UnquotedRules(c: char, rest: string, word: Option<string>)
    ensures c as int in {9, 32} ==> Read([c] + rest, Unquoted, word) == Cons(word, Read(rest, Unquoted, None))
    ensures c as int == 10 ==> Read("\\" + [c] + rest, Unquoted, word) == Read(rest, Unquoted, word)
    ensures c as int != 10 ==> Read("\\" + [c] + rest, Unquoted, word) == Read(rest, Unquoted, Append(word, c))
  {
    hide IsSpecial;
    assert ([c] + rest)[1..] == rest && ("\\" + [c] + rest)[2..] == rest;
    assert ("\\" + [c] + rest)[0] == '\\' && ("\\" + [c] + rest)[1] == c;
  }

  lemma EndingRules(c: char, rest: string, word: Option<string>)
    ensures IsSpecial(c) ==> Read([c] + rest, Unquoted, word) == None
    ensures Read("#" + rest, Unquoted, None) == None
    ensures word.Some? ==> Read("#" + rest, Unquoted, word) == Read(rest, Unquoted, Append(word, '#'))
  {
    assert ([c] + rest)[1..] == rest && ("#" + rest)[1..] == rest;
  }

  // Inside double quotes it does so before four characters, and removes a newline.
  lemma DoubleRules(c: char, rest: string, word: Option<string>)
    ensures c in "$`\"\\" ==> Read("\\" + [c] + rest, Double, word) == Read(rest, Double, Append(word, c))
    ensures c as int == 10 ==> Read("\\" + [c] + rest, Double, word) == Read(rest, Double, word)
    ensures c !in "$`\"\\" && c as int != 10 ==>
      Read("\\" + [c] + rest, Double, word) == Read([c] + rest, Double, Append(word, 92 as char))
    ensures c in "$`" ==> Read([c] + rest, Double, word) == None
    ensures c !in "$`\"\\" ==> Read([c] + rest, Double, word) == Read(rest, Double, Append(word, c))
  {
    var s := "\\" + [c] + rest;
    assert s[2..] == rest && s[1..] == [c] + rest && s[0] == '\\' && s[1] == c && ([c] + rest)[1..] == rest;
  }

  function Words(s: string): Option<seq<string>> {
    Read(s, Unquoted, None)
  }

  // ---- the printer ----

  predicate IsSafe(c: char) {
    'A' <= c <= 'Z' || 'a' <= c <= 'z' || '0' <= c <= '9'
    || c == '_' || c == '-' || c == '.' || c == '/' || c == ':' || c == '='
  }

  predicate AllSafe(s: string) {
    forall i :: 0 <= i < |s| ==> IsSafe(s[i])
  }

  // Every single quote becomes: close, a double-quoted single quote, open.
  function Escape(s: string): string {
    if s == "" then ""
    else (if s[0] == '\'' then "'\"'\"'" else [s[0]]) + Escape(s[1..])
  }

  function Quote(s: string): string {
    if s == "" then "''"
    else if AllSafe(s) then s
    else "'" + Escape(s) + "'"
  }

  // ---- the letter of what is printed ----

  lemma {:induction false} EscapePlain(s: string)
    requires forall i :: 0 <= i < |s| ==> s[i] as int != 39
    ensures Escape(s) == s
  {
    if s != "" {
      EscapePlain(s[1..]);
    }
  }

  lemma {:induction false} EscapeQuote(a: string, b: string)
    ensures Escape(a + "'" + b) == Escape(a) + "'\"'\"'" + Escape(b)
  {
    var s := a + "'" + b;
    if a == "" {
      assert s[1..] == b && Escape(a) + "'\"'\"'" == "'\"'\"'";
    } else {
      EscapeQuote(a[1..], b);
      assert s[1..] == a[1..] + "'" + b;
      var first := if a[0] == '\'' then "'\"'\"'" else [a[0]];
      Regroup(first, Escape(a[1..]), "'\"'\"'", Escape(b));
    }
  }

  lemma Regroup(a: string, b: string, c: string, d: string)
    ensures a + (b + c + d) == a + b + c + d
  {
  }

  lemma SafeCodes(c: char)
    ensures var n := c as int;
      IsSafe(c) <==> 65 <= n <= 90 || 97 <= n <= 122 || 45 <= n <= 58 || n == 61 || n == 95
  {
  }

  // A safe argument is printed as it is, any other one between single quotes.
  lemma QuoteIs(s: string)
    ensures Quote("") == "''"
    ensures s != "" && (forall i :: 0 <= i < |s| ==> IsSafe(s[i])) ==> Quote(s) == s
    ensures s != "" && (exists i :: 0 <= i < |s| && !IsSafe(s[i])) ==> Quote(s) == "'" + Escape(s) + "'"
  {
    hide IsSafe, Escape;
  }

  function Quoted(args: seq<string>): seq<string> {
    if args == [] then [] else Quoted(args[..|args| - 1]) + [Quote(args[|args| - 1])]
  }

  method ShellJoin(args: seq<string>) returns (r: string)
    ensures r == Join(Quoted(args), " ")
    ensures Words(r) == Some(args)
  {
    var quoted := [];
    for i := 0 to |args|
      invariant quoted == Quoted(args[..i])
    {
      assert args[..i + 1][..i] == args[..i];
      quoted := quoted + [Quote(args[i])];
    }
    assert args[..|args|] == args;
    r := Join(quoted, " ");
    JoinReadsBack(args);
  }

  // ---- what is printed reads back ----

  lemma ReadOne(c: char, rest: string, word: Option<string>)
    requires IsSafe(c)
    ensures Read([c] + rest, Unquoted, word) == Read(rest, Unquoted, Append(word, c))
  {
    assert ([c] + rest)[1..] == rest;
  }

  lemma {:induction false} ReadSafe(x: string, rest: string, word: Option<string>)
    requires AllSafe(x) && x != ""
    ensures Read(x + rest, Unquoted, word) == Read(rest, Unquoted, Some(Open(word).value + x))
  {
    hide Read;
    var more := x[1..] + rest;
    assert x + rest == [x[0]] + more;
    ReadOne(x[0], more, word);
    assert Open(word).value + [x[0]] == Append(word, x[0]).value;
    assert x == [x[0]] + x[1..];
    if |x| > 1 {
      ReadSafe(x[1..], rest, Append(word, x[0]));
      assert Open(word).value + [x[0]] + x[1..] == Open(word).value + x;
    } else {
      assert more == rest && x == [x[0]];
    }
  }

  // From inside single quotes, five characters read one quote and stay inside.
  lemma ReadEscapedQuote(rest: string, word: string)
    ensures Read("'\"'\"'" + rest, Single, Some(word)) == Read(rest, Single, Some(word + "'"))
  {
    var s := "'\"'\"'" + rest;
    assert s[1..] == "\"'\"'" + rest;
    assert s[1..][1..] == "'\"'" + rest;
    assert s[1..][1..][1..] == "\"'" + rest;
    assert s[1..][1..][1..][1..] == "'" + rest;
    assert s[1..][1..][1..][1..][1..] == rest;
    assert Read("\"'\"'" + rest, Unquoted, Some(word)) == Read("'\"'" + rest, Double, Some(word));
    assert Read("\"'" + rest, Double, Some(word + "'")) == Read("'" + rest, Unquoted, Some(word + "'"));
  }

  lemma {:induction false} ReadEscaped(x: string, rest: string, word: string)
    ensures Read(Escape(x) + ("'" + rest), Single, Some(word)) == Read(rest, Unquoted, Some(word + x))
  {
    if x == "" {
      assert ("'" + rest)[1..] == rest;
      assert Escape(x) + ("'" + rest) == "'" + rest && word + x == word;
    } else {
      var more := Escape(x[1..]) + ("'" + rest);
      ReadEscaped(x[1..], rest, word + [x[0]]);
      assert word + [x[0]] + x[1..] == word + x;
      if x[0] == '\'' {
        assert Escape(x) + ("'" + rest) == "'\"'\"'" + more;
        ReadEscapedQuote(more, word);
      } else {
        var s := Escape(x) + ("'" + rest);
        assert s == [x[0]] + more;
        assert s[1..] == more;
      }
    }
  }

  lemma OpenQuote(more: string)
    ensures Read("'" + more, Unquoted, None) == Read(more, Single, Some(""))
  {
    assert ("'" + more)[1..] == more;
  }

  lemma CloseQuote(rest: string, word: string)
    ensures Read("'" + rest, Single, Some(word)) == Read(rest, Unquoted, Some(word))
  {
    assert ("'" + rest)[1..] == rest;
  }

  lemma ReadQuoted(x: string, rest: string)
    ensures Read(Quote(x) + rest, Unquoted, None) == Read(rest, Unquoted, Some(x))
  {
    hide Read, Escape;
    if x == "" {
      OpenQuote("'" + rest);
      assert "''" + rest == "'" + ("'" + rest);
      CloseQuote(rest, "");
    } else if AllSafe(x) {
      ReadSafe(x, rest, None);
      assert "" + x == x;
    } else {
      var more := Escape(x) + ("'" + rest);
      assert Quote(x) + rest == "'" + more;
      OpenQuote(more);
      ReadEscaped(x, rest, "");
      assert "" + x == x;
    }
  }

  lemma {:induction false} JoinCons(first: string, args: seq<string>)
    ensures Join(Quoted([first] + args), " ") ==
      Quote(first) + if args == [] then "" else " " + Join(Quoted(args), " ")
  {
    QuotedCons(first, args);
    QuotedLength(args);
  }

  lemma {:induction false} QuotedLength(args: seq<string>)
    ensures |Quoted(args)| == |args|
  {
    if args != [] {
      QuotedLength(args[..|args| - 1]);
    }
  }

  lemma {:induction false} QuotedCons(first: string, args: seq<string>)
    ensures Quoted([first] + args) == [Quote(first)] + Quoted(args)
  {
    hide Quote;
    var all := [first] + args;
    if args == [] {
      assert all[..|all| - 1] == [];
    } else {
      QuotedCons(first, args[..|args| - 1]);
      assert all[..|all| - 1] == [first] + args[..|args| - 1];
    }
  }

  // The shell reads back exactly the arguments, whatever characters they hold.
  lemma {:induction false} JoinReadsBack(args: seq<string>)
    ensures Words(Join(Quoted(args), " ")) == Some(args)
  {
    if args != [] {
      var first, others := args[0], args[1..];
      assert args == [first] + others;
      JoinCons(first, others);
      JoinReadsBack(others);
      if others == [] {
        ReadQuoted(first, "");
        assert Quote(first) + "" == Quote(first);
      } else {
        var tail := Join(Quoted(others), " ");
        ReadQuoted(first, " " + tail);
        assert (" " + tail)[1..] == tail;
      }
    }
  }

  // So no two argument lists print alike.
  lemma JoinInjective(a: seq<string>, b: seq<string>)
    requires Join(Quoted(a), " ") == Join(Quoted(b), " ")
    ensures a == b
  {
    JoinReadsBack(a);
    JoinReadsBack(b);
  }
}
