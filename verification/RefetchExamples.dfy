// A session in which the capped counters pass a class that the uncapped ones would
// compact (cmd/slimference/command_output_first_adaptive.go).
module RefetchExamples {
  import opened Strs
  import opened RefetchBudget
  import opened RefetchDecision

  function Word(i: nat): string {
    seq(i, _ => 'a')
  }

  function Repeat(call: Call, k: nat): seq<Call> {
    seq(k, _ => call)
  }

  function Others(n: nat): seq<Call> {
    seq(n, i requires 0 <= i < n => Call("find", Word(i)))
  }

  predicate Ran(calls: seq<Call>, identity: string) {
    exists i :: 0 <= i < |calls| && calls[i].identity == identity
  }

  lemma {:induction false} RepeatSaved(calls: seq<Call>, call: Call, k: nat)
    requires call.identity in Run(calls).seen
    ensures var more := calls + Repeat(call, k); var c := Capped(calls, call.command);
      Run(more).seen == Run(calls).seen && Capped(more, call.command) == c.(refetch := c.refetch + k)
  {
    var more := calls + Repeat(call, k);
    if k == 0 {
      assert more == calls;
    } else {
      RepeatSaved(calls, call, k - 1);
      assert more[..|more| - 1] == calls + Repeat(call, k - 1);
    }
  }

  lemma {:induction false} RepeatUnsaved(calls: seq<Call>, call: Call, k: nat)
    requires call.identity !in Run(calls).seen && |Run(calls).seen| >= SEEN_CAP
    ensures var more := calls + Repeat(call, k); var c := Capped(calls, call.command);
      Run(more).seen == Run(calls).seen && Capped(more, call.command) == c.(applied := c.applied + k)
  {
    var more := calls + Repeat(call, k);
    if k == 0 {
      assert more == calls;
    } else {
      RepeatUnsaved(calls, call, k - 1);
      assert more[..|more| - 1] == calls + Repeat(call, k - 1);
    }
  }

  lemma {:induction false} RepeatIdeal(calls: seq<Call>, call: Call, k: nat)
    requires Ran(calls, call.identity)
    ensures var c := Ideal(calls, call.command);
      Ideal(calls + Repeat(call, k), call.command) == c.(refetch := c.refetch + k)
  {
    hide Ideal, Repeats, Ran;
    var more := calls + Repeat(call, k);
    if k == 0 {
      assert more == calls;
    } else {
      RepeatIdeal(calls, call, k - 1);
      assert more[..|more| - 1] == calls + Repeat(call, k - 1);
      RanRepeats(calls, call, more);
      IdealStep(more, |more| - 1, call.command);
    }
  }

  lemma RanRepeats(calls: seq<Call>, call: Call, more: seq<Call>)
    requires Ran(calls, call.identity) && |more| > |calls| && more[..|calls|] == calls && more[|more| - 1] == call
    ensures Repeats(more, |more| - 1)
  {
    var i :| 0 <= i < |calls| && calls[i].identity == call.identity;
    assert more[..|calls|][i] == more[i];
  }

  lemma FirstCall(calls: seq<Call>, call: Call)
    requires !Ran(calls, call.identity)
    ensures var more := calls + [call]; var c := Ideal(calls, call.command);
      Ideal(more, call.command) == c.(applied := c.applied + 1) && Ran(more, call.identity)
  {
    var more := calls + [call];
    assert more[..|calls|] == calls;
    assert more[|calls|].identity == call.identity;
    assert forall i :: 0 <= i < |calls| ==> more[i] == calls[i];
    IdealStep(more, |calls|, call.command);
  }

  lemma NewCall(calls: seq<Call>, call: Call)
    requires call.identity !in Run(calls).seen && |Run(calls).seen| < SEEN_CAP
    ensures var more := calls + [call]; var c := Capped(calls, call.command);
      Run(more).seen == Run(calls).seen + [call.identity] && Capped(more, call.command) == c.(applied := c.applied + 1)
  {
    assert (calls + [call])[..|calls|] == calls;
  }

  lemma {:induction false} OthersSaved(n: nat)
    requires n <= SEEN_CAP
    ensures |Run(Others(n)).seen| == n && (forall i :: 0 <= i < n ==> Run(Others(n)).seen[i] == Word(i))
    ensures Capped(Others(n), "rg") == Ideal(Others(n), "rg") == Counts(0, 0)
  {
    if n > 0 {
      OthersSaved(n - 1);
      var before := Others(n - 1);
      assert Others(n) == before + [Call("find", Word(n - 1))];
      assert Others(n)[..n - 1] == before;
      assert Word(n - 1) !in Run(before).seen by {
        assert forall i :: 0 <= i < n - 1 ==> |Run(before).seen[i]| == i;
        assert |Word(n - 1)| == n - 1;
      }
      hide *;
      NewCall(before, Call("find", Word(n - 1)));
      OtherClass(before, Call("find", Word(n - 1)));
    }
  }

  lemma OtherClass(calls: seq<Call>, call: Call)
    requires call.command == "find"
    ensures Capped(calls + [call], "rg") == Capped(calls, "rg") && Ideal(calls + [call], "rg") == Ideal(calls, "rg")
  {
    assert "find"[0] != "rg"[0];
    assert (calls + [call])[..|calls|] == calls;
  }

  // 4095 other commands, one command five times, and past the cap another one four times.
  function Session(): seq<Call> {
    Others(SEEN_CAP - 1) + Repeat(Call("rg", Word(SEEN_CAP)), 5) + Repeat(Call("rg", Word(SEEN_CAP + 1)), 4)
  }

  lemma OverSuppresses()
    ensures Capped(Session(), "rg") == Counts(5, 4) && Ideal(Session(), "rg") == Counts(2, 7)
    ensures ShouldFullPass(Capped(Session(), "rg"), 0.5) && !ShouldFullPass(Ideal(Session(), "rg"), 0.5)
  {
    hide Run, Capped, Ideal, Others, Ran, Word;
    var x, y := Call("rg", Word(SEEN_CAP)), Call("rg", Word(SEEN_CAP + 1));
    var a := Others(SEEN_CAP - 1);
    OthersSaved(SEEN_CAP - 1);
    FreshWord(SEEN_CAP);
    NewCall(a, x);
    FirstCall(a, x);
    var b := a + [x];
    RepeatSaved(b, x, 4);
    RepeatIdeal(b, x, 4);
    var c := b + Repeat(x, 4);
    assert c == a + Repeat(x, 5);
    FreshWord(SEEN_CAP + 1);
    WordsDiffer();
    StillFresh(a, x, y.identity);
    RepeatUnsaved(c, y, 4);
    FirstCall(c, y);
    RepeatIdeal(c + [y], y, 3);
    assert c + [y] + Repeat(y, 3) == c + Repeat(y, 4) == Session();
    PassMeans(Counts(5, 4), 0.5);
  }

  lemma WordsDiffer()
    ensures Word(SEEN_CAP) != Word(SEEN_CAP + 1)
  {
    assert |Word(SEEN_CAP)| == SEEN_CAP;
  }

  lemma FreshWord(n: nat)
    requires n >= SEEN_CAP - 1
    ensures !Ran(Others(SEEN_CAP - 1), Word(n)) && Word(n) !in Run(Others(SEEN_CAP - 1)).seen
  {
    hide Run;
    OthersSaved(SEEN_CAP - 1);
    assert |Word(n)| == n;
    var seen := Run(Others(SEEN_CAP - 1)).seen;
    assert forall i :: 0 <= i < |seen| ==> |seen[i]| == i;
    var a := Others(SEEN_CAP - 1);
    assert forall i :: 0 <= i < |a| ==> |a[i].identity| == i;
  }

  lemma StillFresh(a: seq<Call>, x: Call, identity: string)
    requires !Ran(a, identity) && x.identity != identity
    ensures !Ran(a + [x] + Repeat(x, 4), identity)
  {
  }

  // ---- the identity ----

  predicate NoNul(s: string) {
    forall i :: 0 <= i < |s| ==> s[i] != '\0'
  }

  // The bytes that are hashed: command and arguments, each ended by a NUL, then the
  // working directory.
  function Encode(fields: seq<string>, cwd: string): string {
    if fields == [] then cwd else fields[0] + "\0" + Encode(fields[1..], cwd)
  }

  function Identity(command: string, args: seq<string>, cwd: string): string {
    Encode([command] + args, cwd)
  }

  lemma FirstNul(a: string, u: string)
    requires NoNul(a)
    ensures Find(a + "\0" + u, '\0', 0) == |a|
  {
    var s := a + "\0" + u;
    assert s[|a|] == '\0' && forall i :: 0 <= i < |a| ==> s[i] == a[i];
  }

  lemma SameHead(a: string, b: string, u: string, v: string)
    requires NoNul(a) && NoNul(b) && a + "\0" + u == b + "\0" + v
    ensures a == b && u == v
  {
    var s := a + "\0" + u;
    FirstNul(a, u);
    FirstNul(b, v);
    assert s[..|a|] == a && s[..|b|] == b && s[|a| + 1..] == u && s[|b| + 1..] == v;
  }

  lemma HasNul(fields: seq<string>, cwd: string)
    requires fields != []
    ensures !NoNul(Encode(fields, cwd))
  {
    assert Encode(fields, cwd)[|fields[0]|] == '\0';
  }

  lemma {:induction false} EncodeInjective(a: seq<string>, x: string, b: seq<string>, y: string)
    requires NoNul(x) && NoNul(y) && Encode(a, x) == Encode(b, y)
    requires (forall i :: 0 <= i < |a| ==> NoNul(a[i])) && (forall i :: 0 <= i < |b| ==> NoNul(b[i]))
    ensures a == b && x == y
  {
    if a == [] {
      if b != [] {
        HasNul(b, y);
      }
    } else if b == [] {
      HasNul(a, x);
    } else {
      SameHead(a[0], b[0], Encode(a[1..], x), Encode(b[1..], y));
      EncodeInjective(a[1..], x, b[1..], y);
      assert a == [a[0]] + a[1..] && b == [b[0]] + b[1..];
    }
  }

  // Two invocations hash the same bytes only if command, arguments and directory agree.
  lemma IdentityInjective(command: string, args: seq<string>, cwd: string, command2: string, args2: seq<string>,
                          cwd2: string)
    requires NoNul(command) && NoNul(cwd) && NoNul(command2) && NoNul(cwd2)
    requires (forall i :: 0 <= i < |args| ==> NoNul(args[i])) && (forall i :: 0 <= i < |args2| ==> NoNul(args2[i]))
    requires Identity(command, args, cwd) == Identity(command2, args2, cwd2)
    ensures command == command2 && args == args2 && cwd == cwd2
  {
    EncodeInjective([command] + args, cwd, [command2] + args2, cwd2);
    assert ([command] + args)[0] == command && ([command2] + args2)[0] == command2;
    assert ([command] + args)[1..] == args && ([command2] + args2)[1..] == args2;
  }
}
