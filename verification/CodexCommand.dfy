// The env(1) command that starts Codex (codexEnvCommand in cmd/slimference/proxy_cmd.go).
module CodexCommand {
  import opened Strs
  import opened EnvCommand
  import opened GoQuote

  const RUNTIME_KEYS := [
    "CODEX_THREAD_ID", "CODEX_CI", "CODEX_RUN_ID", "CODEX_SESSION_ID", "CODEX_ACTIVE_RUN_ID",
    "CODEX_PARENT_RUN_ID", "CODEX_RESUME_ID", "CODEX_TASK_ID", "CODEX_TRACE_ID", "CODEX_MANAGED_BY_NPM",
    "CODEX_MANAGED_PACKAGE_ROOT"]

  const PROXY_KEYS := ["HTTP_PROXY", "HTTPS_PROXY", "ALL_PROXY", "http_proxy", "https_proxy", "all_proxy"]
  const BYPASS_KEYS := ["NO_PROXY", "no_proxy"]
  const LOCAL := "127.0.0.1,localhost,::1"

  datatype Mode = Direct | Proxied | ProxiedWss | ProxiedWssBridge | TransparentProxied | Other

  function JoinHostPort(host: string, port: string): string {
    if ':' in host then "[" + host + "]:" + port else host + ":" + port
  }

  function Target(host: string, port: string): string {
    "http://" + JoinHostPort(host, port)
  }

  // An IPv6 address is bracketed.
  lemma TargetIs(host: string, port: string)
    ensures ':' in host ==> Target(host, port) == "http://[" + host + "]:" + port
    ensures ':' !in host ==> Target(host, port) == "http://" + host + ":" + port
  {
    assert "http://" + "[" == "http://[";
    assert "http://" + ("[" + host + "]:" + port) == ("http://" + "[") + host + "]:" + port;
    assert "http://" + (host + ":" + port) == "http://" + host + ":" + port;
  }

  function TrimSlashes(s: string): (r: string)
    ensures r <= s && (r == "" || r[|r| - 1] != '/')
    ensures forall i :: |r| <= i < |s| ==> s[i] == '/'
  {
    if s != "" && s[|s| - 1] == '/' then TrimSlashes(s[..|s| - 1]) else s
  }

  function BaseUrl(mode: Mode, target: string): string {
    if mode.ProxiedWssBridge? then TrimSlashes(target) + "/backend-api/codex-bridge"
    else TrimSlashes(TrimSpace(target)) + "/backend-api/codex"
  }

  function Entry(name: string, value: string): string {
    name + "=" + value
  }

  // ---- what each mode asks of env ----

  function UnsetHere(mode: Mode): seq<string> {
    match mode
    case Direct | Proxied | ProxiedWss | ProxiedWssBridge => PROXY_KEYS
    case TransparentProxied => BYPASS_KEYS
    case Other => []
  }

  function Unset(mode: Mode): seq<string> {
    RUNTIME_KEYS + UnsetHere(mode)
  }

  function SetKeys(mode: Mode): seq<string> {
    match mode
    case Direct | Proxied | ProxiedWss | ProxiedWssBridge => BYPASS_KEYS
    case TransparentProxied => PROXY_KEYS
    case Other => []
  }

  function SetValue(mode: Mode, target: string): string {
    match mode
    case Direct => "*"
    case TransparentProxied => target
    case _ => LOCAL
  }

  function Codex(pr: Printable, mode: Mode, target: string, codexArgs: seq<string>): seq<string> {
    match mode
    case Proxied | ProxiedWss | ProxiedWssBridge =>
      ["codex",
       "-c", "model_provider=" + Quote(pr, "slimference-codex"),
       "-c", "model_providers.slimference-codex.name=" + Quote(pr, "Slimference"),
       "-c", "model_providers.slimference-codex.base_url=" + Quote(pr, BaseUrl(mode, target)),
       "-c", "model_providers.slimference-codex.requires_openai_auth=true",
       "-c", "model_providers.slimference-codex.supports_websockets=" + (if mode.Proxied? then "false" else "true"),
       "-c", "model_providers.slimference-codex.wire_api=" + Quote(pr, "responses")] + codexArgs
    case _ => ["codex"] + codexArgs
  }

  // ---- the lists that ask for it ----

  function Unsets(keys: seq<string>): seq<string> {
    if keys == [] then [] else ["-u", keys[0]] + Unsets(keys[1..])
  }

  function Sets(keys: seq<string>, value: string): seq<string> {
    if keys == [] then [] else [Entry(keys[0], value)] + Sets(keys[1..], value)
  }

  lemma {:induction false} UnsetsConcat(a: seq<string>, b: seq<string>)
    ensures Unsets(a + b) == Unsets(a) + Unsets(b)
  {
    if a == [] {
      assert a + b == b;
    } else {
      assert (a + b)[1..] == a[1..] + b;
      UnsetsConcat(a[1..], b);
    }
  }

  lemma {:induction false} SetsConcat(a: seq<string>, b: seq<string>, value: string)
    ensures Sets(a + b, value) == Sets(a, value) + Sets(b, value)
  {
    if a == [] {
      assert a + b == b;
    } else {
      assert (a + b)[1..] == a[1..] + b;
      SetsConcat(a[1..], b, value);
    }
  }

  method AppendUnsets(args: seq<string>, keys: seq<string>) returns (r: seq<string>)
    ensures r == args + Unsets(keys)
  {
    r := args;
    for i := 0 to |keys|
      invariant r == args + Unsets(keys[..i])
    {
      UnsetsConcat(keys[..i], [keys[i]]);
      assert keys[..i] + [keys[i]] == keys[..i + 1];
      r := r + ["-u", keys[i]];
    }
    assert keys[..|keys|] == keys;
  }

  method AppendSets(args: seq<string>, keys: seq<string>, value: string) returns (r: seq<string>)
    ensures r == args + Sets(keys, value)
  {
    r := args;
    for i := 0 to |keys|
      invariant r == args + Sets(keys[..i], value)
    {
      SetsConcat(keys[..i], [keys[i]], value);
      assert keys[..i] + [keys[i]] == keys[..i + 1];
      r := r + [Entry(keys[i], value)];
    }
    assert keys[..|keys|] == keys;
  }

  method CodexEnvCommand(pr: Printable, mode: Mode, host: string, port: string, codexArgs: seq<string>)
    returns (base: seq<string>)
    ensures base == Argv(pr, mode, Target(host, port), codexArgs)
  {
    hide Unsets, Sets, TrimSlashes, TrimSpace, Quote, Target;
    base := AppendUnsets(["env"], RUNTIME_KEYS);
    UnsetsConcat(RUNTIME_KEYS, UnsetHere(mode));
    assert ["env"] + Unsets(RUNTIME_KEYS) + Unsets(UnsetHere(mode)) == ["env"] + Unsets(Unset(mode));
    var target := Target(host, port);
    match mode {
      case Direct =>
        base := AppendUnsets(base, PROXY_KEYS);
        base := AppendSets(base, BYPASS_KEYS, "*");
      case Proxied | ProxiedWss | ProxiedWssBridge =>
        var baseUrl := TrimSlashes(TrimSpace(target)) + "/backend-api/codex";
        var supportsWebSockets := "false";
        if mode.ProxiedWss? || mode.ProxiedWssBridge? {
          supportsWebSockets := "true";
        }
        if mode.ProxiedWssBridge? {
          baseUrl := TrimSlashes(target) + "/backend-api/codex-bridge";
        }
        base := AppendUnsets(base, PROXY_KEYS);
        base := AppendSets(base, BYPASS_KEYS, LOCAL);
        var codex := ["codex",
                      "-c", "model_provider=" + Quote(pr, "slimference-codex"),
                      "-c", "model_providers.slimference-codex.name=" + Quote(pr, "Slimference"),
                      "-c", "model_providers.slimference-codex.base_url=" + Quote(pr, baseUrl),
                      "-c", "model_providers.slimference-codex.requires_openai_auth=true",
                      "-c", "model_providers.slimference-codex.supports_websockets=" + supportsWebSockets,
                      "-c", "model_providers.slimference-codex.wire_api=" + Quote(pr, "responses")];
        base := base + (codex + codexArgs);
        assert codex + codexArgs == Codex(pr, mode, target, codexArgs);
        return;
      case TransparentProxied =>
        base := AppendUnsets(base, BYPASS_KEYS);
        base := AppendSets(base, PROXY_KEYS, target);
      case Other =>
    }
    if mode.Other? {
      NoKeys(LOCAL);
    }
    base := base + (["codex"] + codexArgs);
  }

  lemma NoKeys(target: string)
    ensures Unsets([]) == [] && Sets([], target) == []
  {
  }

  // ---- what it launches ----

  predicate PlainName(name: string) {
    name != "" && name[0] != '-'
    && forall i :: 0 <= i < |name| ==>
         name[i] != ' ' && name[i] != '/' && name[i] != '.' && name[i] != '-' && name[i] != '='
  }

  function SetAll(vars: Vars, keys: seq<string>, value: string): Vars
    decreases keys
  {
    if keys == [] then vars else SetAll(vars[keys[0] := value], keys[1..], value)
  }

  function RemoveAll(vars: Vars, keys: seq<string>): Vars
    decreases keys
  {
    if keys == [] then vars else RemoveAll(vars - {keys[0]}, keys[1..])
  }

  lemma PlainIsName(name: string)
    requires PlainName(name)
    ensures IsName(name)
  {
  }

  lemma EntryParts(name: string, value: string)
    requires PlainName(name)
    ensures var e := Entry(name, value);
      Find(e, '=', 0) == |name| < |e| && e[..|name|] == name && e[|name| + 1..] == value
    ensures IsAssignment(Entry(name, value)) && !IsFlag(Entry(name, value))
  {
    var e := Entry(name, value);
    assert e[|name|] == '=' && forall i :: 0 <= i < |name| ==> e[i] == name[i];
  }

  ghost predicate AllPlain(keys: seq<string>) {
    forall i :: 0 <= i < |keys| ==> PlainName(keys[i])
  }

  lemma {:induction false} UnsetsRead(keys: seq<string>, rest: seq<string>, vars: Vars)
    requires AllPlain(keys)
    ensures Options(Unsets(keys) + rest, vars) == Options(rest, RemoveAll(vars, keys))
    ensures forall i :: 0 <= i < |Unsets(keys)| ==> Recognised(Unsets(keys)[i])
  {
    hide IsAssignment, Find, PlainName, Operands, IsFlag;
    var all := Unsets(keys) + rest;
    if keys == [] {
      assert all == rest;
    } else {
      UnsetsRead(keys[1..], rest, vars - {keys[0]});
      assert all[0] == "-u" && all[1] == keys[0] && all[2..] == Unsets(keys[1..]) + rest;
      PlainIsName(keys[0]);
      DashIsFlag();
      NameIsRecognised(keys[0]);
    }
  }

  lemma NameIsRecognised(name: string)
    requires IsName(name)
    ensures Recognised(name)
  {
  }

  lemma {:induction false} SetsRead(keys: seq<string>, value: string, rest: seq<string>, vars: Vars)
    requires AllPlain(keys)
    ensures Operands(Sets(keys, value) + rest, vars) == Operands(rest, SetAll(vars, keys, value))
    ensures var sets := Sets(keys, value);
      forall i :: 0 <= i < |sets| ==> Recognised(sets[i]) && !IsFlag(sets[i])
  {
    hide IsAssignment, Find, PlainName, IsFlag, Entry;
    var all := Sets(keys, value) + rest;
    if keys == [] {
      assert all == rest;
    } else {
      EntryParts(keys[0], value);
      SetsRead(keys[1..], value, rest, vars[keys[0] := value]);
      assert all[0] == Entry(keys[0], value) && all[1..] == Sets(keys[1..], value) + rest;
    }
  }

  lemma PlainRuns()
    ensures PlainName("CODEX_THREAD_ID") && PlainName("CODEX_CI")
    ensures PlainName("CODEX_RUN_ID") && PlainName("CODEX_SESSION_ID")
  {
  }

  lemma PlainIds()
    ensures PlainName("CODEX_ACTIVE_RUN_ID") && PlainName("CODEX_PARENT_RUN_ID")
    ensures PlainName("CODEX_RESUME_ID") && PlainName("CODEX_TASK_ID")
  {
  }

  lemma PlainPackages()
    ensures PlainName("CODEX_TRACE_ID") && PlainName("CODEX_MANAGED_BY_NPM")
    ensures PlainName("CODEX_MANAGED_PACKAGE_ROOT")
  {
  }

  lemma PlainProxies()
    ensures PlainName("HTTP_PROXY") && PlainName("HTTPS_PROXY")
    ensures PlainName("ALL_PROXY") && PlainName("NO_PROXY")
  {
  }

  lemma PlainLowerProxies()
    ensures PlainName("http_proxy") && PlainName("https_proxy")
    ensures PlainName("all_proxy") && PlainName("no_proxy")
  {
  }

  lemma PlainLists(mode: Mode)
    ensures AllPlain(Unset(mode)) && AllPlain(SetKeys(mode))
  {
    hide PlainName;
    PlainRuns();
    PlainIds();
    PlainPackages();
    PlainProxies();
    PlainLowerProxies();
  }

  function Argv(pr: Printable, mode: Mode, target: string, codexArgs: seq<string>): seq<string> {
    ["env"] + Unsets(Unset(mode)) + Sets(SetKeys(mode), SetValue(mode, target)) + Codex(pr, mode, target, codexArgs)
  }

  function LaunchVars(mode: Mode, target: string, vars: Vars): Vars {
    SetAll(RemoveAll(vars, Unset(mode)), SetKeys(mode), SetValue(mode, target))
  }

  lemma CodexIsCommand(pr: Printable, mode: Mode, target: string, codexArgs: seq<string>)
    ensures var c := Codex(pr, mode, target, codexArgs);
      c != [] && c[0] == "codex" && Find(c[0], '=', 0) == |c[0]| && !IsFlag(c[0])
  {
    hide Quote, BaseUrl;
    assert forall i :: 0 <= i < 5 ==> "codex"[i] != '=';
    assert "codex"[0] != '-';
  }

  // Flags end where an assignment or the command starts.
  lemma NoFlagLeft(args: seq<string>, vars: Vars)
    requires args != [] && !IsFlag(args[0])
    ensures Options(args, vars) == Operands(args, vars)
  {
    DashIsFlag();
  }

  lemma CodexLaunches(pr: Printable, mode: Mode, target: string, codexArgs: seq<string>, vars: Vars)
    ensures Env(Argv(pr, mode, target, codexArgs), vars)
         == Some(Launch(LaunchVars(mode, target, vars), Codex(pr, mode, target, codexArgs)))
    ensures var args := Argv(pr, mode, target, codexArgs)[1..]; var c := Codex(pr, mode, target, codexArgs);
      |c| <= |args| && StopsAt(args, |args| - |c|)
  {
    hide Operands, Options, Find, IsFlag, IsAssignment, Codex, Unset, SetKeys, Unsets, Sets, Recognised;
    var unsets, sets := Unsets(Unset(mode)), Sets(SetKeys(mode), SetValue(mode, target));
    var c := Codex(pr, mode, target, codexArgs);
    var args := Argv(pr, mode, target, codexArgs)[1..];
    var kept := RemoveAll(vars, Unset(mode));
    assert args == unsets + (sets + c);
    PlainLists(mode);
    UnsetsRead(Unset(mode), sets + c, vars);
    SetsRead(SetKeys(mode), SetValue(mode, target), c, kept);
    CodexIsCommand(pr, mode, target, codexArgs);
    assert (sets + c)[0] == if sets != [] then sets[0] else c[0];
    NoFlagLeft(sets + c, kept);
    CommandEnds(c, SetAll(kept, SetKeys(mode), SetValue(mode, target)));
    forall i | 0 <= i < |unsets| + |sets| ensures Recognised(args[i]) {
      assert args[i] == if i < |unsets| then unsets[i] else sets[i - |unsets|];
    }
  }

  // For every mode, host, port and arguments, the insertion does not overshoot, keeps
  // Codex and its arguments, and appends the assignments to what env sets.
  lemma InsertIntoCodex(pr: Printable, mode: Mode, target: string, codexArgs: seq<string>, more: seq<string>,
                        vars: Vars)
    requires Assigning(more) && (more != [] ==> !IsFlag(more[0]))
    ensures var argv := Argv(pr, mode, target, codexArgs); var n := 1 + Passed(argv[1..]);
      n <= |argv| && Env(argv[..n] + more + argv[n..], vars)
        == Some(Launch(Assigned(more, LaunchVars(mode, target, vars)), Codex(pr, mode, target, codexArgs)))
  {
    hide Argv, Codex, LaunchVars, Options, Operands, Assigned, StopsAt, IsFlag, IsAssignment, Find, Passed;
    CodexLaunches(pr, mode, target, codexArgs, vars);
    CodexIsCommand(pr, mode, target, codexArgs);
    PassedIff(Argv(pr, mode, target, codexArgs)[1..], vars);
    InsertAppends(Argv(pr, mode, target, codexArgs), more, vars);
  }

  // ---- which variables Codex sees ----

  lemma {:induction false} RemoveAllReads(vars: Vars, keys: seq<string>)
    ensures RemoveAll(vars, keys).Keys == vars.Keys - (set k | k in keys)
    ensures forall k :: k in RemoveAll(vars, keys) ==> RemoveAll(vars, keys)[k] == vars[k]
    decreases keys
  {
    if keys != [] {
      RemoveAllReads(vars - {keys[0]}, keys[1..]);
      assert (set k | k in keys) == {keys[0]} + (set k | k in keys[1..]);
    }
  }

  lemma {:induction false} SetAllReads(vars: Vars, keys: seq<string>, value: string)
    ensures SetAll(vars, keys, value).Keys == vars.Keys + (set k | k in keys)
    ensures forall k :: k in SetAll(vars, keys, value) ==>
      SetAll(vars, keys, value)[k] == if k in keys then value else vars[k]
    decreases keys
  {
    if keys != [] {
      SetAllReads(vars[keys[0] := value], keys[1..], value);
      assert (set k | k in keys) == {keys[0]} + (set k | k in keys[1..]);
    }
  }

  // Codex sees the mode's proxy settings, none of the variables of the session that
  // started it, and every other variable unchanged.
  lemma LaunchVarsRead(mode: Mode, target: string, vars: Vars, key: string)
    ensures var l := LaunchVars(mode, target, vars);
      if key in SetKeys(mode) then key in l && l[key] == SetValue(mode, target)
      else if key in Unset(mode) then key !in l
      else (key in l <==> key in vars) && (key in l ==> l[key] == vars[key])
  {
    hide Unset, SetKeys, SetValue, RemoveAll, SetAll;
    var kept := RemoveAll(vars, Unset(mode));
    RemoveAllReads(vars, Unset(mode));
    SetAllReads(kept, SetKeys(mode), SetValue(mode, target));
    assert key in SetKeys(mode) <==> key in (set k | k in SetKeys(mode));
    assert key in Unset(mode) <==> key in (set k | k in Unset(mode));
  }

  ghost predicate Sees(vars: Vars, keys: seq<string>, value: string) {
    forall k :: k in keys ==> k in vars && vars[k] == value
  }

  ghost predicate Lacks(vars: Vars, keys: seq<string>) {
    forall k :: k in keys ==> k !in vars
  }

  // The same by name.
  lemma CodexSees(mode: Mode, host: string, port: string, vars: Vars)
    ensures var l := LaunchVars(mode, Target(host, port), vars);
      var proxies := ["HTTP_PROXY", "HTTPS_PROXY", "ALL_PROXY", "http_proxy", "https_proxy", "all_proxy"];
      var bypasses := ["NO_PROXY", "no_proxy"];
      && Lacks(l, ["CODEX_THREAD_ID", "CODEX_CI", "CODEX_RUN_ID", "CODEX_SESSION_ID", "CODEX_ACTIVE_RUN_ID",
                   "CODEX_PARENT_RUN_ID", "CODEX_RESUME_ID", "CODEX_TASK_ID", "CODEX_TRACE_ID",
                   "CODEX_MANAGED_BY_NPM", "CODEX_MANAGED_PACKAGE_ROOT"])
      && (mode.Direct? ==> Lacks(l, proxies) && Sees(l, bypasses, "*"))
      && (mode.Proxied? || mode.ProxiedWss? || mode.ProxiedWssBridge? ==>
            Lacks(l, proxies) && Sees(l, bypasses, "127.0.0.1,localhost,::1"))
      && (mode.TransparentProxied? ==> Lacks(l, bypasses) && Sees(l, proxies, Target(host, port)))
  {
    hide LaunchVars, Target;
    forall key
      ensures var l := LaunchVars(mode, Target(host, port), vars);
        if key in SetKeys(mode) then key in l && l[key] == SetValue(mode, Target(host, port))
        else key in Unset(mode) ==> key !in l
    {
      LaunchVarsRead(mode, Target(host, port), vars, key);
    }
    RuntimeIsNoProxy();
  }

  lemma RuntimeIsNoProxy()
    ensures forall key :: key in RUNTIME_KEYS ==> key !in PROXY_KEYS && key !in BYPASS_KEYS
    ensures forall key :: key in PROXY_KEYS ==> key !in BYPASS_KEYS
  {
    RuntimeStart();
    ProxyStart();
  }

  lemma RuntimeStart()
    ensures forall key :: key in RUNTIME_KEYS ==> key != "" && key[0] == 'C'
  {
    assert forall i :: 0 <= i < |RUNTIME_KEYS| ==> RUNTIME_KEYS[i] != "" && RUNTIME_KEYS[i][0] == 'C';
  }

  lemma ProxyStart()
    ensures forall key :: key in PROXY_KEYS ==> |key| > 8 && key[0] != 'C'
    ensures forall key :: key in BYPASS_KEYS ==> |key| == 8 && key[0] != 'C'
  {
    assert forall i :: 0 <= i < |PROXY_KEYS| ==> |PROXY_KEYS[i]| > 8 && PROXY_KEYS[i][0] != 'C';
    assert forall i :: 0 <= i < |BYPASS_KEYS| ==> |BYPASS_KEYS[i]| == 8 && BYPASS_KEYS[i][0] != 'C';
  }
}
