// Splitting a text at its newlines and joining it again, as Go's strings.Split
// and strings.Join do.
module TextLines {
  import opened Strs

  predicate OneLine(s: string) {
    forall i :: 0 <= i < |s| ==> s[i] != '\n'
  }

  predicate AllLines(lines: seq<string>) {
    forall i :: 0 <= i < |lines| ==> OneLine(lines[i])
  }

  function Split(s: string): (lines: seq<string>)
    ensures lines != []
  {
    var k := Find(s, '\n', 0);
    if k == |s| then [s] else [s[..k]] + Split(s[k + 1..])
  }

  // The text of the first i lines, newlines included.
  function Before(lines: seq<string>, i: nat): string
    requires i <= |lines|
  {
    if i == 0 then "" else Before(lines, i - 1) + lines[i - 1] + "\n"
  }

  lemma {:induction false} SplitLines(s: string)
    ensures AllLines(Split(s))
  {
    var k := Find(s, '\n', 0);
    if k < |s| {
      SplitLines(s[k + 1..]);
    }
  }

  lemma {:induction false} JoinSplit(s: string)
    ensures Join(Split(s), "\n") == s
  {
    var k := Find(s, '\n', 0);
    if k < |s| {
      JoinSplit(s[k + 1..]);
      assert Split(s)[1..] == Split(s[k + 1..]);
      assert s == s[..k] + "\n" + s[k + 1..];
    }
  }

  lemma SplitCons(first: string, rest: string)
    requires OneLine(first)
    ensures Split(first + "\n" + rest) == [first] + Split(rest)
  {
    var s := first + "\n" + rest;
    assert s[|first|] == '\n' && forall i :: 0 <= i < |first| ==> s[i] == first[i];
    assert Find(s, '\n', 0) == |first|;
    assert s[|first| + 1..] == rest && s[..|first|] == first;
  }

  lemma SplitOne(s: string)
    requires OneLine(s)
    ensures Split(s) == [s]
  {
    assert Find(s, '\n', 0) == |s|;
  }

  lemma {:induction false} SplitJoin(lines: seq<string>)
    requires lines != [] && AllLines(lines)
    ensures Split(Join(lines, "\n")) == lines
  {
    hide Split, OneLine;
    if |lines| == 1 {
      SplitOne(lines[0]);
    } else {
      SplitJoin(lines[1..]);
      SplitCons(lines[0], Join(lines[1..], "\n"));
      assert lines == [lines[0]] + lines[1..];
    }
  }

  lemma {:induction false} JoinBefore(lines: seq<string>, i: nat)
    requires i < |lines|
    ensures Join(lines, "\n") == Before(lines, i) + Join(lines[i..], "\n")
  {
    if i == 0 {
      assert lines[0..] == lines;
    } else {
      JoinBefore(lines, i - 1);
      var first, rest := lines[i - 1], Join(lines[i..], "\n");
      assert lines[i - 1..][1..] == lines[i..];
      assert Join(lines[i - 1..], "\n") == first + "\n" + rest;
      assert Before(lines, i - 1) + (first + "\n" + rest) == Before(lines, i - 1) + first + "\n" + rest;
    }
  }

  lemma {:induction false} BeforePrefix(a: seq<string>, b: seq<string>, i: nat)
    requires i <= |a| && i <= |b| && a[..i] == b[..i]
    ensures Before(a, i) == Before(b, i)
  {
    if i > 0 {
      assert a[..i][..i - 1] == a[..i - 1] && b[..i][..i - 1] == b[..i - 1];
      assert a[..i][i - 1] == a[i - 1] && b[..i][i - 1] == b[i - 1];
      BeforePrefix(a, b, i - 1);
    }
  }

  lemma EndsWithLine(lines: seq<string>, i: nat)
    requires i <= |lines|
    ensures var t := Before(lines, i); t == "" || t[|t| - 1] == '\n'
  {
  }

  // Joining all but the first line starts with a newline, if there is a second one.
  lemma JoinHead(lines: seq<string>)
    requires lines != []
    ensures exists rest :: Join(lines, "\n") == lines[0] + rest && (rest == "" || rest[0] == '\n')
  {
    if |lines| == 1 {
      assert Join(lines, "\n") == lines[0] + "";
    } else {
      var rest := "\n" + Join(lines[1..], "\n");
      assert Join(lines, "\n") == lines[0] + rest && rest[0] == '\n';
    }
  }
}
