// The configuration of a Codex Desktop launch: written as environment by the launcher,
// read by the shim, written as arguments and read again
// (cmd/slimference/codex_desktop_app_server_shim.go).
module DesktopShim {
  import opened Strs
  import opened EnvLists
  import opened Basics
  import opened GoQuote
  import opened DesktopLaunch
  import CodexCommand

  // ---- what the launch environment says, key by key ----

  lemma LaunchLooksUp(q: Request, base: seq<string>, extra: seq<string>, key: string)
    ensures Lookup(LaunchEnv(q, base, extra), key) ==
      if key in APP_SERVER_KEYS then Some(FixedValue(key, q))
      else if Overridden(key) || IsRuntime(key) then None
      else if key in WORKSPACE_KEYS then Lookup(extra, key)
      else if PREFIX <= key then Lookup(base, key)
      else Merged(extra, base, key)
  {
    hide Lookup, Fixed, FixedValue, IsRuntime, Kept;
    var fixed := Fixed(q);
    var front, back := Kept(Kept(base, DroppedFromBase), Overridden), Kept(extra, DroppedFromExtra);
    LookupConcat(front + fixed, back, key);
    LookupConcat(front, fixed, key);
    FixedLooksUp(key, q);
    KeptLooksUp(Kept(base, DroppedFromBase), Overridden, key);
    KeptLooksUp(base, DroppedFromBase, key);
    KeptLooksUp(extra, DroppedFromExtra, key);
    if key in WORKSPACE_KEYS {
      WorkspaceKeys(key);
    }
  }

  lemma WorkspaceKeys(key: string)
    requires key in WORKSPACE_KEYS
    ensures !(PREFIX <= key) && key !in APP_SERVER_KEYS
  {
    assert |key| <= 6;
    DistinctKeys();
  }

  ghost predicate Reads(env: seq<string>, key: string, value: string) {
    Lookup(env, key) == Some(value)
  }

  // The fixed entries by name, whatever base and extras say.
  lemma LaunchSays(q: Request, base: seq<string>, extra: seq<string>)
    ensures var env := LaunchEnv(q, base, extra);
      && Reads(env, "CODEX_CLI_PATH", q.slimferenceBin)
      && Reads(env, "SLIMFERENCE_CODEX_DESKTOP_ACTIVE", "1")
      && Reads(env, "SLIMFERENCE_CODEX_DESKTOP_UPSTREAM_BIN", q.upstreamBin)
      && Reads(env, "SLIMFERENCE_CODEX_DESKTOP_BASE_URL", q.baseUrl)
      && Reads(env, "SLIMFERENCE_CODEX_DESKTOP_SUPPORTS_WEBSOCKETS", if q.supportsWebSockets then "true" else "false")
      && Reads(env, "NO_PROXY", "127.0.0.1,localhost,::1") && Reads(env, "no_proxy", "127.0.0.1,localhost,::1")
  {
    hide LaunchEnv, Lookup;
    KeyNames();
    LaunchLooksUp(q, base, extra, CLI_PATH);
    LaunchLooksUp(q, base, extra, ACTIVE);
    LaunchLooksUp(q, base, extra, UPSTREAM_BIN);
    LaunchLooksUp(q, base, extra, BASE_URL);
    LaunchLooksUp(q, base, extra, SUPPORTS_WS);
    LaunchLooksUp(q, base, extra, "NO_PROXY");
    LaunchLooksUp(q, base, extra, "no_proxy");
    DistinctKeys();
  }

  lemma KeyNames()
    ensures ACTIVE == "SLIMFERENCE_CODEX_DESKTOP_ACTIVE"
    ensures UPSTREAM_BIN == "SLIMFERENCE_CODEX_DESKTOP_UPSTREAM_BIN"
    ensures BASE_URL == "SLIMFERENCE_CODEX_DESKTOP_BASE_URL"
    ensures SUPPORTS_WS == "SLIMFERENCE_CODEX_DESKTOP_SUPPORTS_WEBSOCKETS"
  {
  }

  const DROPPED := [
    "HTTP_PROXY", "HTTPS_PROXY", "WSS_PROXY", "ALL_PROXY", "http_proxy", "https_proxy", "wss_proxy", "all_proxy",
    "CODEX_NETWORK_PROXY_ACTIVE",
    "CHATGPT_CODEX_BASE_URL", "OPENAI_BASE_URL", "OPENAI_API_BASE", "CHATGPT_BASE_URL", "API_BASE_URL",
    "CODEX_CA_CERTIFICATE", "SSL_CERT_FILE", "CURL_CA_BUNDLE", "REQUESTS_CA_BUNDLE", "NODE_EXTRA_CA_CERTS"]

  // Proxy settings, base URLs and certificates never come from base or extras.
  lemma LaunchDrops(q: Request, base: seq<string>, extra: seq<string>, key: string)
    requires key in DROPPED || key in CodexCommand.RUNTIME_KEYS
    ensures Lookup(LaunchEnv(q, base, extra), key) == None
  {
    hide LaunchEnv, Lookup;
    LaunchLooksUp(q, base, extra, key);
    assert key !in APP_SERVER_KEYS by { NotFixed(key); }
  }

  // None of the launch's own keys: none is so long or so short, but for these letters.
  predicate Apart(key: string) {
    |key| < 32 && (|key| == 14 ==> key[1] == 'U' || key[6] == 'T') && (|key| == 8 ==> key[0] == 'C')
  }

  lemma ApartIsNotFixed(key: string)
    requires Apart(key)
    ensures key !in APP_SERVER_KEYS
  {
    DistinctKeys();
    assert CLI_PATH[1] == 'O' && CLI_PATH[6] == 'C' && "NO_PROXY"[0] == 'N' && "no_proxy"[0] == 'n';
  }

  lemma ProxiesApart()
    ensures Apart("HTTP_PROXY") && Apart("HTTPS_PROXY") && Apart("WSS_PROXY") && Apart("ALL_PROXY")
    ensures Apart("http_proxy") && Apart("https_proxy") && Apart("wss_proxy") && Apart("all_proxy")
    ensures Apart("CODEX_NETWORK_PROXY_ACTIVE")
  {
  }

  lemma UrlsApart()
    ensures Apart("CHATGPT_CODEX_BASE_URL") && Apart("OPENAI_BASE_URL") && Apart("OPENAI_API_BASE")
    ensures Apart("CHATGPT_BASE_URL") && Apart("API_BASE_URL")
    ensures Apart("CODEX_CA_CERTIFICATE") && Apart("SSL_CERT_FILE") && Apart("CURL_CA_BUNDLE")
    ensures Apart("REQUESTS_CA_BUNDLE") && Apart("NODE_EXTRA_CA_CERTS")
  {
  }

  lemma RuntimeApart(key: string)
    requires key in CodexCommand.RUNTIME_KEYS
    ensures Apart(key)
  {
    assert forall i :: 0 <= i < 11 ==> Apart(CodexCommand.RUNTIME_KEYS[i]);
  }

  lemma NotFixed(key: string)
    requires key in DROPPED || key in CodexCommand.RUNTIME_KEYS
    ensures key !in APP_SERVER_KEYS
  {
    hide Apart;
    if key in CodexCommand.RUNTIME_KEYS {
      RuntimeApart(key);
    } else {
      ProxiesApart();
      UrlsApart();
      assert forall i :: 0 <= i < |DROPPED| ==> Apart(DROPPED[i]);
    }
    ApartIsNotFixed(key);
  }

  // The directories come from the extras alone.
  lemma LaunchDirectory(q: Request, base: seq<string>, extra: seq<string>, key: string)
    requires key in ["PWD", "OLDPWD"]
    ensures Lookup(LaunchEnv(q, base, extra), key) == Lookup(extra, key)
  {
    hide LaunchEnv, Lookup;
    LaunchLooksUp(q, base, extra, key);
    WorkspaceKeys(key);
  }

  // ---- the shim ----

  datatype ShimError = NotScoped | NoUpstreamBin | BadUpstreamBin | NoBaseUrl | BadBaseUrl | BadBool

  datatype ShimExec = Exec(bin: string, argv: seq<string>, env: seq<string>) | Refused(error: ShimError)

  // strconv.ParseBool.
  function ParseBool(s: string): Option<bool> {
    if s == "1" || s == "t" || s == "T" || s == "true" || s == "TRUE" || s == "True" then Some(true)
    else if s == "0" || s == "f" || s == "F" || s == "false" || s == "FALSE" || s == "False" then Some(false)
    else None
  }

  function Value(env: seq<string>, key: string): string {
    if Lookup(env, key).Some? then Lookup(env, key).value else ""
  }

  const BASE_URL_ARG := "model_providers.slimference-codex.base_url="
  const SUPPORTS_WS_ARG := "model_providers.slimference-codex.supports_websockets="

  function Settings(pr: Printable, baseUrl: string, supportsWebSockets: bool): seq<string> {
    ["-c", "model_provider=" + Quote(pr, "slimference-codex"),
     "-c", "model_providers.slimference-codex.name=" + Quote(pr, "Slimference"),
     "-c", BASE_URL_ARG + Quote(pr, baseUrl),
     "-c", "model_providers.slimference-codex.requires_openai_auth=true",
     "-c", SUPPORTS_WS_ARG + FormatBool(supportsWebSockets),
     "-c", "model_providers.slimference-codex.wire_api=" + Quote(pr, "responses")]
  }

  function Argv(pr: Printable, upstreamBin: string, baseUrl: string, supportsWebSockets: bool,
                args: seq<string>): seq<string> {
    [upstreamBin, "app-server"] + Settings(pr, baseUrl, supportsWebSockets) + args
  }

  predicate Private(key: string) {
    key == CLI_PATH || PREFIX <= key
  }

  // Printable ASCII without blanks. The check of the base URL lets nothing else pass:
  // net/url refuses control characters anywhere and others in user names and ports, the
  // host must be localhost or an IP address, and the path decode to one fixed ASCII text.
  predicate IsPlainUrl(url: string) {
    forall i :: 0 <= i < |url| ==> ' ' < url[i] <= '~'
  }

  lemma PlainUrlCodes(url: string)
    ensures IsPlainUrl(url) <==> forall i :: 0 <= i < |url| ==> 33 <= url[i] as int <= 126
  {
  }

  // The spellings that strconv.ParseBool reads.
  lemma BoolSpellings(s: string)
    ensures ParseBool(s) == Some(true) <==> s in ["1", "t", "T", "TRUE", "true", "True"]
    ensures ParseBool(s) == Some(false) <==> s in ["0", "f", "F", "FALSE", "false", "False"]
  {
  }

  // The check of the binary and the rest of that of the URL come from outside.
  method BuildShimExec(pr: Printable, args: seq<string>, env: seq<string>, okBin: string -> bool, okUrl: string -> bool)
      returns (r: ShimExec)
    ensures r == ShimOf(pr, args, env, okBin, okUrl)
  {
    hide Lookup, Argv, TrimSpace, Kept;
    FixedKeys();
    var active := EnvValue(env, ACTIVE);
    if active != "1" { return Refused(NotScoped); }
    var rawBin := EnvValue(env, UPSTREAM_BIN);
    var upstreamBin := TrimSpace(rawBin);
    if upstreamBin == "" { return Refused(NoUpstreamBin); }
    if !okBin(upstreamBin) { return Refused(BadUpstreamBin); }
    var rawUrl := EnvValue(env, BASE_URL);
    var baseUrl := CodexCommand.TrimSlashes(TrimSpace(rawUrl));
    if baseUrl == "" { return Refused(NoBaseUrl); }
    if !IsPlainUrl(baseUrl) || !okUrl(baseUrl) { return Refused(BadBaseUrl); }
    var rawWs := EnvValue(env, SUPPORTS_WS);
    var supportsWebSockets := true;
    if TrimSpace(rawWs) != "" {
      var parsed := ParseBool(TrimSpace(rawWs));
      if parsed.None? { return Refused(BadBool); }
      supportsWebSockets := parsed.value;
    }
    var argv := Argv(pr, upstreamBin, baseUrl, supportsWebSockets, args);
    var clean := Drop(env, Private);
    r := Exec(upstreamBin, argv, clean);
  }

  function ReadBool(raw: string): Option<bool> {
    if TrimSpace(raw) == "" then Some(true) else ParseBool(TrimSpace(raw))
  }

  function ShimOf(pr: Printable, args: seq<string>, env: seq<string>, okBin: string -> bool,
                  okUrl: string -> bool): ShimExec {
    var upstreamBin := TrimSpace(Value(env, UPSTREAM_BIN));
    var baseUrl := CodexCommand.TrimSlashes(TrimSpace(Value(env, BASE_URL)));
    var supportsWebSockets := ReadBool(Value(env, SUPPORTS_WS));
    if Value(env, ACTIVE) != "1" then Refused(NotScoped)
    else if upstreamBin == "" then Refused(NoUpstreamBin)
    else if !okBin(upstreamBin) then Refused(BadUpstreamBin)
    else if baseUrl == "" then Refused(NoBaseUrl)
    else if !IsPlainUrl(baseUrl) || !okUrl(baseUrl) then Refused(BadBaseUrl)
    else if supportsWebSockets.None? then Refused(BadBool)
    else Exec(upstreamBin, Argv(pr, upstreamBin, baseUrl, supportsWebSockets.value, args), Kept(env, Private))
  }

  // ---- reading the arguments back ----

  function TrimQuotes(s: string): string
    decreases |s|
  {
    if s != "" && s[0] == '"' then TrimQuotes(s[1..])
    else if s != "" && s[|s| - 1] == '"' then TrimQuotes(s[..|s| - 1])
    else s
  }

  function ReadUrl(raw: string): string {
    var s := ReadString(raw);
    if s.Some? && s.value != "" then s.value else TrimQuotes(raw)
  }

  predicate Quotes(s: string) {
    forall i :: 0 <= i < |s| ==> s[i] == '"'
  }

  lemma {:induction false} TrimQuotesMeans(s: string) returns (front: string, back: string)
    ensures s == front + TrimQuotes(s) + back && Quotes(front) && Quotes(back)
    ensures var t := TrimQuotes(s); t != "" ==> t[0] != '"' && t[|t| - 1] != '"'
    decreases |s|
  {
    front, back := "", "";
    if s != "" && s[0] == '"' {
      front, back := TrimQuotesMeans(s[1..]);
      front := "\"" + front;
    } else if s != "" && s[|s| - 1] == '"' {
      front, back := TrimQuotesMeans(s[..|s| - 1]);
      back := back + "\"";
    }
  }

  // What is no string literal, or an empty one, is read without its quotes.
  lemma UrlMeans(raw: string)
    ensures ReadString(raw) in {None, Some("")} ==> ReadUrl(raw) == TrimQuotes(raw)
    ensures ReadString(raw) !in {None, Some("")} ==> Some(ReadUrl(raw)) == ReadString(raw)
  {
    hide ReadString, TrimQuotes;
  }

  function Apply(p: Provider, arg: string): Provider {
    if BASE_URL_ARG <= arg then p.(baseUrl := ReadUrl(arg[|BASE_URL_ARG|..]))
    else if SUPPORTS_WS_ARG <= arg then
      var parsed := ParseBool(TrimSpace(arg[|SUPPORTS_WS_ARG|..]));
      if parsed.Some? then p.(supportsWebSockets := parsed.value) else p
    else p
  }

  function ApplyAll(p: Provider, argv: seq<string>): Provider {
    if argv == [] then p else Apply(ApplyAll(p, argv[..|argv| - 1]), argv[|argv| - 1])
  }

  method ProviderFromArgv(argv: seq<string>) returns (config: Provider)
    ensures config == ApplyAll(Provider("", true), argv)
  {
    hide ReadUrl, TrimSpace;
    config := Provider("", true);
    for i := 0 to |argv|
      invariant config == ApplyAll(Provider("", true), argv[..i])
    {
      assert argv[..i + 1][..i] == argv[..i];
      var arg := argv[i];
      if BASE_URL_ARG <= arg {
        config := config.(baseUrl := ReadUrl(arg[|BASE_URL_ARG|..]));
      } else if SUPPORTS_WS_ARG <= arg {
        var parsed := ParseBool(TrimSpace(arg[|SUPPORTS_WS_ARG|..]));
        if parsed.Some? {
          config := config.(supportsWebSockets := parsed.value);
        }
      }
    }
    assert argv[..|argv|] == argv;
  }

  // Arguments that set neither the base URL nor the WebSocket flag.
  predicate Neutral(args: seq<string>) {
    forall i :: 0 <= i < |args| ==> !(BASE_URL_ARG <= args[i]) && !(SUPPORTS_WS_ARG <= args[i])
  }

  lemma {:induction false} NeutralKeeps(p: Provider, a: seq<string>, b: seq<string>)
    requires Neutral(b)
    ensures ApplyAll(p, a + b) == ApplyAll(p, a)
  {
    hide Apply;
    if b == [] {
      assert a + b == a;
    } else {
      assert (a + b)[..|a + b| - 1] == a + b[..|b| - 1];
      NeutralKeeps(p, a, b[..|b| - 1]);
      NeutralOne(ApplyAll(p, a), b[|b| - 1]);
    }
  }

  lemma NeutralOne(p: Provider, arg: string)
    requires !(BASE_URL_ARG <= arg) && !(SUPPORTS_WS_ARG <= arg)
    ensures Apply(p, arg) == p
  {
  }

  lemma NeutralParts(pr: Printable)
    ensures Neutral(["model_providers.slimference-codex.name=" + Quote(pr, "Slimference"), "-c"])
    ensures Neutral(["-c", "model_providers.slimference-codex.requires_openai_auth=true", "-c"])
    ensures Neutral(["-c", "model_providers.slimference-codex.wire_api=" + Quote(pr, "responses")])
  {
    hide Quote;
    assert BASE_URL_ARG[34] == 'b' && SUPPORTS_WS_ARG[34] == 's';
    Differs("model_providers.slimference-codex.name=" + Quote(pr, "Slimference"), 34);
    Differs("model_providers.slimference-codex.requires_openai_auth=true", 34);
    Differs("model_providers.slimference-codex.wire_api=" + Quote(pr, "responses"), 34);
    Differs("-c", 0);
  }

  lemma Differs(arg: string, i: nat)
    requires i < |arg| && i < |BASE_URL_ARG| && i < |SUPPORTS_WS_ARG|
    requires arg[i] != BASE_URL_ARG[i] && arg[i] != SUPPORTS_WS_ARG[i]
    ensures !(BASE_URL_ARG <= arg) && !(SUPPORTS_WS_ARG <= arg)
  {
  }

  lemma ApplyLast(p: Provider, a: seq<string>, arg: string)
    ensures ApplyAll(p, a + [arg]) == Apply(ApplyAll(p, a), arg)
  {
    assert (a + [arg])[..|a|] == a;
  }

  lemma UrlArg(p: Provider, raw: string)
    ensures Apply(p, BASE_URL_ARG + raw) == p.(baseUrl := ReadUrl(raw))
  {
    hide ReadUrl;
    assert (BASE_URL_ARG + raw)[|BASE_URL_ARG|..] == raw;
  }

  lemma WsArg(p: Provider, ws: bool)
    ensures Apply(p, SUPPORTS_WS_ARG + FormatBool(ws)) == p.(supportsWebSockets := ws)
  {
    hide ReadUrl, TrimSpace;
    var arg := SUPPORTS_WS_ARG + FormatBool(ws);
    assert arg[|SUPPORTS_WS_ARG|..] == FormatBool(ws);
    assert arg[34] == 's';
    BoolReads(ws);
  }

  lemma BoolReads(ws: bool)
    ensures TrimSpace(FormatBool(ws)) == FormatBool(ws) && ParseBool(FormatBool(ws)) == Some(ws)
  {
    var s := FormatBool(ws);
    assert TrimLeft(s) == s;
  }

  // Arguments that leave both settings alone do not change what the settings before them
  // say, and nothing in front of the settings matters.
  lemma SettingsRead(pr: Printable, front: seq<string>, baseUrl: string, ws: bool, args: seq<string>)
    requires Neutral(args)
    ensures ApplyAll(Provider("", true), front + Settings(pr, baseUrl, ws) + args)
         == Provider(ReadUrl(Quote(pr, baseUrl)), ws)
  {
    hide Apply, ReadUrl, Quote, FormatBool, Neutral;
    var p := Provider("", true);
    var all, n := front + Settings(pr, baseUrl, ws), |front|;
    NeutralParts(pr);
    assert all[n + 3..n + 5] == ["model_providers.slimference-codex.name=" + Quote(pr, "Slimference"), "-c"];
    assert all[..n + 3] + all[n + 3..n + 5] == all[..n + 5];
    NeutralKeeps(p, all[..n + 3], all[n + 3..n + 5]);
    assert all[..n + 5] + [BASE_URL_ARG + Quote(pr, baseUrl)] == all[..n + 6];
    ApplyLast(p, all[..n + 5], BASE_URL_ARG + Quote(pr, baseUrl));
    UrlArg(ApplyAll(p, all[..n + 5]), Quote(pr, baseUrl));
    assert all[n + 6..n + 9] == ["-c", "model_providers.slimference-codex.requires_openai_auth=true", "-c"];
    NeutralKeeps(p, all[..n + 6], all[n + 6..n + 9]);
    assert all[..n + 6] + all[n + 6..n + 9] == all[..n + 9];
    assert all[..n + 9] + [SUPPORTS_WS_ARG + FormatBool(ws)] == all[..n + 10];
    ApplyLast(p, all[..n + 9], SUPPORTS_WS_ARG + FormatBool(ws));
    WsArg(ApplyAll(p, all[..n + 9]), ws);
    assert all[n + 10..] == ["-c", "model_providers.slimference-codex.wire_api=" + Quote(pr, "responses")];
    NeutralKeeps(p, all[..n + 10], all[n + 10..]);
    assert all[..n + 10] + all[n + 10..] == all;
    NeutralKeeps(p, all, args);
  }

  // The command line of the proxied modes says the same to such a reader.
  lemma CodexArgsRead(pr: Printable, mode: CodexCommand.Mode, target: string, args: seq<string>)
    requires Neutral(args) && (mode.Proxied? || mode.ProxiedWss? || mode.ProxiedWssBridge?)
    ensures ApplyAll(Provider("", true), CodexCommand.Codex(pr, mode, target, args))
         == Provider(ReadUrl(Quote(pr, CodexCommand.BaseUrl(mode, target))), !mode.Proxied?)
  {
    hide ApplyAll, ReadUrl, Quote, Neutral;
    var url := CodexCommand.BaseUrl(mode, target);
    SettingsRead(pr, ["codex"], url, !mode.Proxied?, args);
    CodexIsSettings(pr, mode, target, args);
  }

  lemma CodexIsSettings(pr: Printable, mode: CodexCommand.Mode, target: string, args: seq<string>)
    requires mode.Proxied? || mode.ProxiedWss? || mode.ProxiedWssBridge?
    ensures CodexCommand.Codex(pr, mode, target, args)
         == ["codex"] + Settings(pr, CodexCommand.BaseUrl(mode, target), !mode.Proxied?) + args
  {
    hide Quote;
    var url := CodexCommand.BaseUrl(mode, target);
    assert BASE_URL_ARG == "model_providers.slimference-codex.base_url=";
    assert SUPPORTS_WS_ARG == "model_providers.slimference-codex.supports_websockets=";
  }

  // ---- the URL read back ----

  lemma {:induction false} EscapeIsShared(pr: Printable, s: string)
    ensures AllShared(pr, Escape(pr, s))
  {
    if s != "" {
      EscapeIsShared(pr, s[1..]);
      CharIsShared(pr, s[0]);
    }
  }

  lemma HexIsShared(pr: Printable, d: nat)
    requires d < 16
    ensures Shared(pr, HEX[d])
  {
  }

  lemma Hex2IsShared(pr: Printable, n: nat)
    requires n < 0x100
    ensures AllShared(pr, Hex2(n))
  {
    hide Shared;
    HexIsShared(pr, n / 16);
    HexIsShared(pr, n % 16);
  }

  lemma SharedConcat(pr: Printable, a: string, b: string)
    requires AllShared(pr, a) && AllShared(pr, b)
    ensures AllShared(pr, a + b)
  {
    hide Shared;
  }

  lemma Hex4IsShared(pr: Printable, n: nat)
    requires n < 0x1_0000
    ensures AllShared(pr, Hex4(n))
  {
    hide AllShared, Hex2;
    Hex2IsShared(pr, n / 0x100);
    Hex2IsShared(pr, n % 0x100);
    SharedConcat(pr, Hex2(n / 0x100), Hex2(n % 0x100));
  }

  lemma MarksAreShared(pr: Printable)
    ensures AllShared(pr, "\\x") && AllShared(pr, "\\u") && AllShared(pr, "\\U")
  {
  }

  lemma ShortIsShared(pr: Printable, c: char)
    requires Short(c).Some?
    ensures AllShared(pr, ['\\', Short(c).value])
  {
  }

  lemma CharIsShared(pr: Printable, c: char)
    ensures AllShared(pr, EscapeChar(pr, c))
  {
    hide Hex2, Hex4, Short;
    MarksAreShared(pr);
    if Short(c).Some? {
      ShortIsShared(pr, c);
    } else if !IsPrint(pr, c) {
      hide AllShared;
      if c < '\U{0080}' {
        Hex2IsShared(pr, c as int);
        SharedConcat(pr, "\\x", Hex2(c as int));
      } else if c as int < 0x1_0000 {
        Hex4IsShared(pr, c as int);
        SharedConcat(pr, "\\u", Hex4(c as int));
      } else {
        var high, low := c as int / 0x1_0000, c as int % 0x1_0000;
        Hex4IsShared(pr, high);
        Hex4IsShared(pr, low);
        SharedConcat(pr, Hex4(high), Hex4(low));
        SharedConcat(pr, "\\U", Hex4(high) + Hex4(low));
      }
    }
  }

  lemma {:induction false} TrimmedIsShared(pr: Printable, s: string)
    requires AllShared(pr, s)
    ensures AllShared(pr, TrimQuotes(s))
    decreases |s|
  {
    if s != "" && s[0] == '"' {
      TrimmedIsShared(pr, s[1..]);
    } else if s != "" && s[|s| - 1] == '"' {
      TrimmedIsShared(pr, s[..|s| - 1]);
    }
  }

  // A URL survives the quoting exactly when none of its characters needs an escape that
  // JSON lacks.
  lemma UrlReadsIff(pr: Printable, url: string)
    requires url != ""
    ensures ReadUrl(Quote(pr, url)) == url <==> AllShared(pr, url)
  {
    hide ReadString, Shared, TrimQuotes;
    QuoteReadsIff(pr, url);
    if !AllShared(pr, url) {
      EscapeIsShared(pr, url);
      assert AllShared(pr, "\"") by { QuoteIsShared(pr); }
      assert AllShared(pr, Quote(pr, url));
      TrimmedIsShared(pr, Quote(pr, url));
    }
  }

  // A bell is quoted as an escape that JSON refuses.
  lemma BellIsLost(pr: Printable)
    ensures ReadUrl(Quote(pr, "\U{0007}")) != "\U{0007}"
  {
    hide ReadUrl, Quote;
    assert !Shared(pr, "\U{0007}"[0]);
    UrlReadsIff(pr, "\U{0007}");
  }

  // So is the tag character U+E0001, which is not printable and needs eight digits.
  lemma TagIsLost(pr: Printable)
    requires !pr('\U{E0001}')
    ensures ReadUrl(Quote(pr, "\U{E0001}")) != "\U{E0001}"
  {
    hide ReadUrl, Quote;
    assert !Shared(pr, "\U{E0001}"[0]);
    UrlReadsIff(pr, "\U{E0001}");
  }

  lemma QuoteIsShared(pr: Printable)
    ensures AllShared(pr, "\"")
  {
  }

  // ---- the round trip ----

  // For any base environment and extras, the shim finds the binary and the URL trimmed,
  // and the flag, that the launcher was given.
  lemma LaunchIsRead(pr: Printable, q: Request, base: seq<string>, extra: seq<string>, args: seq<string>,
                     okBin: string -> bool, okUrl: string -> bool)
    ensures var env := LaunchEnv(q, base, extra);
      var bin, url := TrimSpace(q.upstreamBin), CodexCommand.TrimSlashes(TrimSpace(q.baseUrl));
      ShimOf(pr, args, env, okBin, okUrl) ==
      if bin == "" then Refused(NoUpstreamBin)
      else if !okBin(bin) then Refused(BadUpstreamBin)
      else if url == "" then Refused(NoBaseUrl)
      else if !IsPlainUrl(url) || !okUrl(url) then Refused(BadBaseUrl)
      else Exec(bin, [bin, "app-server"] + Settings(pr, url, q.supportsWebSockets) + args, Kept(env, Private))
  {
    hide Lookup, LaunchEnv, Argv, Kept, TrimSpace, FormatBool, IsPlainUrl;
    LaunchLooksUp(q, base, extra, ACTIVE);
    LaunchLooksUp(q, base, extra, UPSTREAM_BIN);
    LaunchLooksUp(q, base, extra, BASE_URL);
    LaunchLooksUp(q, base, extra, SUPPORTS_WS);
    DistinctKeys();
    BoolReads(q.supportsWebSockets);
    BoolIsText(q.supportsWebSockets);
    ArgvIs(pr, TrimSpace(q.upstreamBin), CodexCommand.TrimSlashes(TrimSpace(q.baseUrl)), q.supportsWebSockets, args);
  }

  lemma ArgvIs(pr: Printable, bin: string, url: string, ws: bool, args: seq<string>)
    ensures Argv(pr, bin, url, ws, args) == [bin, "app-server"] + Settings(pr, url, ws) + args
  {
  }

  lemma BoolIsText(ws: bool)
    ensures FormatBool(ws) != ""
  {
  }

  // Whatever the shim agrees to start reads from its arguments the launcher's trimmed
  // base URL and flag, if the user's own arguments leave both alone.
  lemma LaunchRoundTrip(pr: Printable, q: Request, base: seq<string>, extra: seq<string>, args: seq<string>,
                        okBin: string -> bool, okUrl: string -> bool)
    requires Neutral(args)
    ensures var r := ShimOf(pr, args, LaunchEnv(q, base, extra), okBin, okUrl);
      var url := CodexCommand.TrimSlashes(TrimSpace(q.baseUrl));
      r.Exec? ==> ApplyAll(Provider("", true), r.argv) == Provider(url, q.supportsWebSockets)
  {
    hide LaunchEnv, ShimOf, Argv, Settings, Kept, TrimSpace, ReadUrl, Quote, ApplyAll, AllShared, Neutral, IsPlainUrl;
    LaunchIsRead(pr, q, base, extra, args, okBin, okUrl);
    var bin, url := TrimSpace(q.upstreamBin), CodexCommand.TrimSlashes(TrimSpace(q.baseUrl));
    SettingsRead(pr, [bin, "app-server"], url, q.supportsWebSockets, args);
    if url != "" && IsPlainUrl(url) {
      PlainIsShared(pr, url);
      UrlReadsIff(pr, url);
    }
  }

  lemma PlainIsShared(pr: Printable, url: string)
    requires IsPlainUrl(url)
    ensures AllShared(pr, url)
  {
  }

  lemma PrivateIs(key: string)
    ensures Private(key) <==> key == "CODEX_CLI_PATH" || "SLIMFERENCE_CODEX_DESKTOP_" <= key
  {
  }

  // The child sees none of the launch's own keys and every other key as the launch had it.
  lemma {:induction false} ChildEnv(env: seq<string>, key: string)
    ensures key == "CODEX_CLI_PATH" || "SLIMFERENCE_CODEX_DESKTOP_" <= key ==> Lookup(Kept(env, Private), key) == None
    ensures key != "CODEX_CLI_PATH" && !("SLIMFERENCE_CODEX_DESKTOP_" <= key) ==>
      Lookup(Kept(env, Private), key) == Lookup(env, key)
    ensures forall i :: 0 <= i < |Kept(env, Private)| ==>
      KeyOf(Kept(env, Private)[i]).Some? ==> !Private(KeyOf(Kept(env, Private)[i]).value)
  {
    hide KeyOf, Private, Lookup;
    PrivateIs(key);
    KeptLooksUp(env, Private, key);
    if env != [] {
      ChildEnv(env[..|env| - 1], key);
    }
  }
}
