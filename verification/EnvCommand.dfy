// Commands for env(1): codexEnvCommand (cmd/slimference/proxy_cmd.go) and the insertion
// of assignments before the utility (cmd/slimference/command_output_first.go).
module EnvCommand {
  import opened Strs

  // ---- what env(1) does ----

  type Vars = map<string, string>

  datatype Launch = Launch(vars: Vars, command: seq<string>)

  // Operands NAME=value set variables; the first other one starts the command. Without a
  // command, or with a nameless assignment, nothing is launched.
  function Operands(args: seq<string>, vars: Vars): Option<Launch> {
    if args == [] then None
    else
      var k := Find(args[0], '=', 0);
      if k == |args[0]| then Some(Launch(vars, args))
      else if k == 0 then None
      else Operands(args[1..], vars[args[0][..k] := args[0][k + 1..]])
  }

  predicate IsFlag(arg: string) {
    "-" <= arg
  }

  predicate IsName(name: string) {
    name != "" && Find(name, '=', 0) == |name|
  }

  // The options -u NAME come first; no other option is read here.
  function Options(args: seq<string>, vars: Vars): Option<Launch> {
    if |args| > 1 && args[0] == "-u" then
      if IsName(args[1]) then Options(args[2..], vars - {args[1]}) else None
    else if args != [] && IsFlag(args[0]) then None
    else Operands(args, vars)
  }

  function Env(argv: seq<string>, vars: Vars): Option<Launch> {
    if argv == [] then None else Options(argv[1..], vars)
  }

  // ---- the scan ----

  // A key with a space, slash, dot or dash makes no assignment for the scan.
  predicate IsAssignment(arg: string) {
    var k := Find(arg, '=', 0);
    0 < k < |arg| && forall i :: 0 <= i < k ==> arg[i] != ' ' && arg[i] != '/' && arg[i] != '.' && arg[i] != '-'
  }

  // That is: an equals sign behind a first character, and none of the five before it.
  lemma AssignmentMeans(arg: string)
    ensures IsFlag(arg) <==> arg != "" && arg[0] == '-'
    ensures IsAssignment(arg) <==> exists k :: EqualsAt(arg, k)
  {
    if exists k :: EqualsAt(arg, k) {
      var k :| EqualsAt(arg, k);
      assert Find(arg, '=', 0) == k;
    } else if IsAssignment(arg) {
      assert EqualsAt(arg, Find(arg, '=', 0));
    }
  }

  predicate EqualsAt(arg: string, k: nat) {
    0 < k < |arg| && arg[k] == '=' && forall i :: 0 <= i < k ==> arg[i] !in "= /.-"
  }

  // How many arguments the scan passes; one too many after a dangling -u.
  function Passed(args: seq<string>): (n: nat)
    ensures n <= |args| + 1
    decreases |args|
  {
    if args == [] then 0
    else if args[0] == "-u" then 2 + (if |args| == 1 then 0 else Passed(args[2..]))
    else if IsFlag(args[0]) || IsAssignment(args[0]) then 1 + Passed(args[1..])
    else 0
  }

  // None where the source slices beyond the list.
  method InsertBeforeUtility(command: seq<string>, assignments: seq<string>) returns (out: Option<seq<string>>)
    ensures command == [] || assignments == [] ==> out == Some(command)
    ensures command != [] && assignments != [] ==>
      var n := 1 + Passed(command[1..]);
      out == if n > |command| then None else Some(command[..n] + assignments + command[n..])
  {
    hide IsAssignment, IsFlag;
    if command == [] || assignments == [] { return Some(command); }
    var idx := 1;
    while idx < |command|
      invariant 1 <= idx <= |command| + 1
      invariant 1 + Passed(command[1..]) == idx + if idx <= |command| then Passed(command[idx..]) else 0
      decreases |command| + 1 - idx
    {
      var arg := command[idx];
      var rest := command[idx..];
      assert rest[1..] == command[idx + 1..];
      assert |rest| > 1 ==> rest[2..] == command[idx + 2..];
      if arg == "-u" {
        idx := idx + 2;
      } else if IsFlag(arg) {
        idx := idx + 1;
      } else if IsAssignment(arg) {
        idx := idx + 1;
      } else {
        break;
      }
    }
    if idx > |command| { return None; }
    out := Some(command[..idx] + assignments + command[idx..]);
  }

  // ---- insertion appends to what env sets ----

  predicate Assigning(args: seq<string>) {
    forall i :: 0 <= i < |args| ==> 0 < Find(args[i], '=', 0) < |args[i]|
  }

  function Assigned(args: seq<string>, vars: Vars): Vars
    requires Assigning(args)
  {
    if args == [] then vars
    else
      var k := Find(args[0], '=', 0);
      Assigned(args[1..], vars[args[0][..k] := args[0][k + 1..]])
  }

  lemma {:induction false} OperandsAssign(args: seq<string>, rest: seq<string>, vars: Vars)
    requires Assigning(args)
    ensures Operands(args + rest, vars) == Operands(rest, Assigned(args, vars))
  {
    if args == [] {
      assert args + rest == rest;
    } else {
      assert (args + rest)[1..] == args[1..] + rest;
      var k := Find(args[0], '=', 0);
      OperandsAssign(args[1..], rest, vars[args[0][..k] := args[0][k + 1..]]);
    }
  }

  // The command env starts is a tail of its arguments.
  lemma {:induction false} OperandsTail(args: seq<string>, vars: Vars)
    requires Operands(args, vars).Some?
    ensures var c := Operands(args, vars).value.command;
      c != [] && |c| <= |args| && args[|args| - |c|..] == c && Find(c[0], '=', 0) == |c[0]|
    ensures Assigning(args[..|args| - |Operands(args, vars).value.command|])
  {
    var k := Find(args[0], '=', 0);
    if k < |args[0]| {
      var next := vars[args[0][..k] := args[0][k + 1..]];
      OperandsTail(args[1..], next);
      var c := Operands(args[1..], next).value.command;
      var n := |args| - |c|;
      assert args[n..] == args[1..][n - 1..];
      forall i | 0 <= i < n ensures 0 < Find(args[..n][i], '=', 0) < |args[..n][i]| {
        assert i > 0 ==> args[i] == args[1..][..n - 1][i - 1];
      }
    }
  }

  lemma {:induction false} OptionsTail(args: seq<string>, vars: Vars)
    requires Options(args, vars).Some?
    ensures var c := Options(args, vars).value.command;
      c != [] && |c| <= |args| && args[|args| - |c|..] == c && Find(c[0], '=', 0) == |c[0]|
    decreases |args|
  {
    if |args| > 1 && args[0] == "-u" {
      OptionsTail(args[2..], vars - {args[1]});
      var n := |args| - |Options(args, vars).value.command|;
      assert args[n..] == args[2..][n - 2..];
    } else {
      OperandsTail(args, vars);
    }
  }

  lemma CommandEnds(c: seq<string>, vars: Vars)
    requires c != [] && Find(c[0], '=', 0) == |c[0]|
    ensures Operands(c, vars) == Some(Launch(vars, c))
  {
  }

  lemma OperandsInsert(args: seq<string>, n: nat, more: seq<string>, vars: Vars)
    requires Operands(args, vars).Some? && Assigning(more)
    requires n <= |args| && args[n..] == Operands(args, vars).value.command
    ensures var l := Operands(args, vars).value;
      Operands(args[..n] + more + args[n..], vars) == Some(Launch(Assigned(more, l.vars), l.command))
  {
    hide Find, Operands, Assigned, Assigning;
    var pre, rest := args[..n], args[n..];
    OperandsTail(args, vars);
    OperandsAssign(pre, rest, vars);
    assert pre + rest == args;
    OperandsAssign(pre, more + rest, vars);
    OperandsAssign(more, rest, Assigned(pre, vars));
    CommandEnds(rest, Assigned(pre, vars));
    CommandEnds(rest, Assigned(more, Assigned(pre, vars)));
    assert pre + more + rest == pre + (more + rest);
  }

  lemma StartsPlain(args: seq<string>, n: nat, more: seq<string>, vars: Vars)
    requires n <= |args| && Options(args, vars).Some? && !(|args| > 1 && args[0] == "-u")
    requires more != [] ==> !IsFlag(more[0])
    ensures Options(args, vars) == Operands(args, vars)
    ensures Options(args[..n] + more + args[n..], vars) == Operands(args[..n] + more + args[n..], vars)
  {
    hide Find, IsFlag, IsName;
    DashIsFlag();
    var all := args[..n] + more + args[n..];
    assert args != [] by { SomeArgs(args, vars); }
    assert all[0] == if n > 0 then args[0] else if more != [] then more[0] else args[0];
  }

  lemma SomeArgs(args: seq<string>, vars: Vars)
    requires Options(args, vars).Some?
    ensures args != []
  {
  }

  lemma {:induction false} OptionsInsert(args: seq<string>, n: nat, more: seq<string>, vars: Vars)
    requires Options(args, vars).Some? && Assigning(more)
    requires n <= |args| && args[n..] == Options(args, vars).value.command
    requires more != [] ==> !IsFlag(more[0])
    ensures var l := Options(args, vars).value;
      Options(args[..n] + more + args[n..], vars) == Some(Launch(Assigned(more, l.vars), l.command))
    decreases |args|
  {
    hide Find, Options, Operands, IsFlag, IsName, Assigned, Assigning;
    var all := args[..n] + more + args[n..];
    if |args| > 1 && args[0] == "-u" {
      var rest := args[2..];
      assert args == ["-u", args[1]] + rest;
      UnsetStep(args, vars);
      OptionsTail(rest, vars - {args[1]});
      assert n >= 2;
      assert rest[n - 2..] == args[n..] && rest[..n - 2] == args[2..n];
      OptionsInsert(rest, n - 2, more, vars - {args[1]});
      assert all[2..] == rest[..n - 2] + more + rest[n - 2..];
      UnsetStep(all, vars);
    } else {
      StartsPlain(args, n, more, vars);
      OperandsInsert(args, n, more, vars);
    }
  }

  lemma UnsetStep(args: seq<string>, vars: Vars)
    requires |args| > 1 && args[0] == "-u"
    ensures Options(args, vars) == if IsName(args[1]) then Options(args[2..], vars - {args[1]}) else None
  {
  }

  lemma DashIsFlag()
    ensures IsFlag("-u")
  {
  }

  // ---- where the scan stops ----

  predicate Recognised(arg: string) {
    Find(arg, '=', 0) < |arg| ==> IsFlag(arg) || IsAssignment(arg)
  }

  ghost predicate StopsAt(args: seq<string>, n: nat)
    requires n < |args|
  {
    !IsFlag(args[n]) && forall i :: 0 <= i < n ==> Recognised(args[i])
  }

  lemma {:induction false} OperandsPassed(args: seq<string>, vars: Vars)
    requires Operands(args, vars).Some?
    ensures var c := Operands(args, vars).value.command;
      Passed(args) + |c| == |args| <==> |c| <= |args| && c != [] && StopsAt(args, |args| - |c|)
  {
    hide IsFlag, IsAssignment;
    OperandsTail(args, vars);
    DashIsFlag();
    var n := |args| - |Operands(args, vars).value.command|;
    var k := Find(args[0], '=', 0);
    if n > 0 {
      OperandsPassed(args[1..], vars[args[0][..k] := args[0][k + 1..]]);
      assert args[0] != "-u" by { NoEquals(); }
      assert Recognised(args[0]) <==> IsFlag(args[0]) || IsAssignment(args[0]);
      StopsShift(args, 1, n);
      if !Recognised(args[0]) {
        assert Passed(args) == 0;
      }
    } else {
      NoAssignment(args[0]);
    }
  }

  lemma NoEquals()
    ensures Find("-u", '=', 0) == 2
  {
    assert Find("-u", '=', 2) == 2;
    assert Find("-u", '=', 1) == 2;
  }

  lemma NoAssignment(arg: string)
    requires Find(arg, '=', 0) == |arg|
    ensures !IsAssignment(arg)
  {
  }

  lemma StopsShift(args: seq<string>, m: nat, n: nat)
    requires m <= n < |args|
    requires forall i :: 0 < i < m ==> Recognised(args[i])
    ensures StopsAt(args, n) <==> (m > 0 ==> Recognised(args[0])) && StopsAt(args[m..], n - m)
  {
    hide Recognised, IsFlag;
    if StopsAt(args[m..], n - m) && (m > 0 ==> Recognised(args[0])) {
      forall i | 0 <= i < n ensures Recognised(args[i]) {
        assert i >= m ==> args[i] == args[m..][i - m];
      }
    }
  }

  // The scan stops at the command that env starts exactly when that command does not
  // look like a flag and every assignment before it looks like one to the scan.
  lemma {:induction false} PassedIff(args: seq<string>, vars: Vars)
    requires Options(args, vars).Some?
    ensures var c := Options(args, vars).value.command;
      Passed(args) + |c| == |args| <==> |c| <= |args| && c != [] && StopsAt(args, |args| - |c|)
    decreases |args|
  {
    hide IsFlag, IsAssignment, Operands, StopsAt;
    if |args| > 1 && args[0] == "-u" {
      PassedIff(args[2..], vars - {args[1]});
      OptionsTail(args[2..], vars - {args[1]});
      NoEquals();
      var n := |args| - |Options(args, vars).value.command|;
      StopsShift(args, 2, n);
    } else {
      OperandsPassed(args, vars);
    }
  }

  // Then the assignments are appended to what env would set, and the command is kept.
  lemma InsertAppends(command: seq<string>, more: seq<string>, vars: Vars)
    requires Env(command, vars).Some? && Assigning(more) && (more != [] ==> !IsFlag(more[0]))
    requires Passed(command[1..]) + |Env(command, vars).value.command| == |command| - 1
    ensures var n, l := 1 + Passed(command[1..]), Env(command, vars).value;
      n <= |command| && Env(command[..n] + more + command[n..], vars) == Some(Launch(Assigned(more, l.vars), l.command))
  {
    hide Options, Assigned, Assigning;
    var args := command[1..];
    var n := 1 + Passed(args);
    OptionsTail(args, vars);
    assert args[n - 1..] == command[n..] && args[..n - 1] == command[1..n];
    OptionsInsert(args, n - 1, more, vars);
    var all := command[..n] + more + command[n..];
    assert all[1..] == args[..n - 1] + more + args[n - 1..];
  }
}
