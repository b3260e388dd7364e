// The bounded log of recertification (cmd/slimference/codex_recert.go): one file and its
// predecessor.
module RecertLog {
  import opened Strs

  const MAX := 0x20_0000

  datatype Append = Append(line: string, renameOk: bool, writeOk: bool)

  class Log {
    var current: Option<string>
    var rotated: Option<string>

    constructor ()
      ensures Files() == Pair(None, None)
    {
      current, rotated := None, None;
    }

    function Files(): Pair reads this {
      Pair(current, rotated)
    }

    // False where the source returns an error. A failed write leaves a new empty file.
    method AppendLine(a: Append) returns (ok: bool)
      modifies this
      ensures Files() == Appended(old(Files()), a)
      ensures ok == Accepted(old(Files()), a)
    {
      if current.Some? && |current.value| + |a.line| > MAX {
        rotated := None;
        if !a.renameOk { return false; }
        rotated, current := current, None;
      }
      if current.None? {
        current := Some("");
      }
      if !a.writeOk { return false; }
      current := Some(current.value + a.line);
      ok := true;
    }
  }

  datatype Pair = Pair(current: Option<string>, rotated: Option<string>)

  function TextOf(file: Option<string>): string {
    if file.Some? then file.value else ""
  }

  // What both files together still say.
  function Kept(f: Pair): string {
    TextOf(f.rotated) + TextOf(f.current)
  }

  predicate Full(f: Pair, a: Append) {
    f.current.Some? && |f.current.value| + |a.line| > MAX
  }

  predicate Accepted(f: Pair, a: Append) {
    a.writeOk && (Full(f, a) ==> a.renameOk)
  }

  function Appended(f: Pair, a: Append): Pair {
    if Full(f, a) && !a.renameOk then f.(rotated := None)
    else
      var g := if Full(f, a) then Pair(Some(""), f.current) else f.(current := Some(TextOf(f.current)));
      if a.writeOk then g.(current := Some(g.current.value + a.line)) else g
  }

  function Run(appends: seq<Append>): Pair {
    if appends == [] then Pair(None, None)
    else Appended(Run(appends[..|appends| - 1]), appends[|appends| - 1])
  }

  // The lines that were accepted, in order.
  function History(appends: seq<Append>): string {
    if appends == [] then ""
    else
      var n := |appends| - 1;
      History(appends[..n]) + NewText(Run(appends[..n]), appends[n])
  }

  predicate IsSuffix(s: string, of: string) {
    |s| <= |of| && of[|of| - |s|..] == s
  }

  predicate NothingFails(appends: seq<Append>) {
    forall i :: 0 <= i < |appends| ==> appends[i].renameOk && appends[i].writeOk
  }

  predicate ShortLines(appends: seq<Append>) {
    forall i :: 0 <= i < |appends| ==> |appends[i].line| <= 2097152
  }

  lemma SuffixMore(s: string, of: string, line: string)
    requires IsSuffix(s, of)
    ensures IsSuffix(s + line, of + line)
  {
    assert (of + line)[|of| - |s|..] == of[|of| - |s|..] + line;
  }

  lemma SuffixOfSuffix(a: string, b: string, of: string)
    requires IsSuffix(a + b, of)
    ensures IsSuffix(b, of)
  {
    assert of[|of| - |b|..] == of[|of| - |a + b|..][|a|..];
  }

  function NewText(f: Pair, a: Append): string {
    if Accepted(f, a) then a.line else ""
  }

  // What is kept: a full current file stays, or both files, and then the new line.
  function Base(f: Pair, a: Append): string {
    if Full(f, a) then TextOf(f.current) else Kept(f)
  }

  lemma AppendedText(f: Pair, a: Append)
    ensures Kept(Appended(f, a)) == Base(f, a) + NewText(f, a)
  {
    var cur := TextOf(f.current);
    assert "" + cur == cur && cur + ("" + a.line) == cur + a.line;
    assert TextOf(f.rotated) + (cur + a.line) == TextOf(f.rotated) + cur + a.line;
  }

  // One append, on any pair of files that hold the end of a history.
  lemma AppendKeepsEnd(f: Pair, a: Append, history: string)
    requires IsSuffix(Kept(f), history)
    ensures IsSuffix(Kept(Appended(f, a)), history + NewText(f, a))
  {
    hide IsSuffix, Appended, NewText;
    AppendedText(f, a);
    SuffixOfSuffix(TextOf(f.rotated), TextOf(f.current), history);
    SuffixMore(Base(f, a), history, NewText(f, a));
  }

  // The two files hold the end of what was logged, whatever fails.
  lemma {:induction false} LogKeepsEnd(appends: seq<Append>)
    ensures IsSuffix(Kept(Run(appends)), History(appends))
  {
    hide IsSuffix, Appended, NewText, Kept;
    if appends == [] {
      assert IsSuffix(Kept(Run([])), History([])) by { NothingLogged(); }
    } else {
      var n := |appends| - 1;
      LogKeepsEnd(appends[..n]);
      AppendKeepsEnd(Run(appends[..n]), appends[n], History(appends[..n]));
    }
  }

  lemma NothingLogged()
    ensures IsSuffix(Kept(Run([])), History([]))
  {
  }

  // Neither file grows past the limit, if no line is longer than it.
  lemma {:induction false} LogIsBounded(appends: seq<Append>)
    requires ShortLines(appends)
    ensures |TextOf(Run(appends).current)| <= 2097152 && |TextOf(Run(appends).rotated)| <= 2097152
  {
    if appends != [] {
      LogIsBounded(appends[..|appends| - 1]);
    }
  }

  // While nothing fails, they hold everything, or more than the limit.
  lemma {:induction false} LogKeepsLimit(appends: seq<Append>)
    requires NothingFails(appends)
    ensures Kept(Run(appends)) == History(appends) || |Kept(Run(appends))| > 2097152
  {
    if appends != [] {
      var n := |appends| - 1;
      LogKeepsLimit(appends[..n]);
      AppendedText(Run(appends[..n]), appends[n]);
    }
  }
}
