// The environment that the Codex Desktop launcher writes
// (cmd/slimference/codex_desktop_launcher.go) and the shim hands on
// (cmd/slimference/codex_desktop_app_server_shim.go).
module DesktopLaunch {
  import opened Strs
  import opened EnvLists
  import CodexCommand

  const CLI_PATH := "CODEX_CLI_PATH"
  const PREFIX := "SLIMFERENCE_CODEX_DESKTOP_"
  const ACTIVE := PREFIX + "ACTIVE"
  const UPSTREAM_BIN := PREFIX + "UPSTREAM_BIN"
  const BASE_URL := PREFIX + "BASE_URL"
  const SUPPORTS_WS := PREFIX + "SUPPORTS_WEBSOCKETS"

  const APP_SERVER_KEYS := {CLI_PATH, ACTIVE, UPSTREAM_BIN, BASE_URL, SUPPORTS_WS, "NO_PROXY", "no_proxy"}
  const PROXY_KEYS := {
    "HTTP_PROXY", "HTTPS_PROXY", "WSS_PROXY", "ALL_PROXY", "http_proxy", "https_proxy", "wss_proxy", "all_proxy",
    "NO_PROXY", "no_proxy", "CODEX_NETWORK_PROXY_ACTIVE"}
  const URL_KEYS := {"CHATGPT_CODEX_BASE_URL", "OPENAI_BASE_URL", "OPENAI_API_BASE", "CHATGPT_BASE_URL", "API_BASE_URL"}
  const CA_KEYS := {
    "CODEX_CA_CERTIFICATE", "SSL_CERT_FILE", "CURL_CA_BUNDLE", "REQUESTS_CA_BUNDLE", "NODE_EXTRA_CA_CERTS"}
  const WORKSPACE_KEYS := {"PWD", "OLDPWD"}

  predicate IsRuntime(key: string) {
    key in CodexCommand.RUNTIME_KEYS
  }

  // ---- dropping keys ----

  // The entries whose key is not dropped; an entry without a key is kept.
  function Kept(env: seq<string>, drop: string -> bool): seq<string> {
    if env == [] then []
    else
      var last := env[|env| - 1];
      var rest := Kept(env[..|env| - 1], drop);
      if KeyOf(last).Some? && drop(KeyOf(last).value) then rest else rest + [last]
  }

  lemma {:induction false} KeptLooksUp(env: seq<string>, drop: string -> bool, key: string)
    ensures Lookup(Kept(env, drop), key) == if drop(key) then None else Lookup(env, key)
  {
    hide KeyOf, ValueOf;
    if env != [] {
      var last, rest := env[|env| - 1], Kept(env[..|env| - 1], drop);
      KeptLooksUp(env[..|env| - 1], drop, key);
      assert (rest + [last])[..|rest|] == rest;
    }
  }

  lemma {:induction false} LookupConcat(a: seq<string>, b: seq<string>, key: string)
    ensures Lookup(a + b, key) == Merged(b, a, key)
  {
    hide KeyOf, ValueOf;
    if b == [] {
      assert a + b == a;
    } else {
      assert (a + b)[..|a + b| - 1] == a + b[..|b| - 1];
      LookupConcat(a, b[..|b| - 1], key);
    }
  }

  method Drop(env: seq<string>, drop: string -> bool) returns (out: seq<string>)
    ensures out == Kept(env, drop)
  {
    out := [];
    for i := 0 to |env|
      invariant out == Kept(env[..i], drop)
    {
      assert env[..i + 1][..i] == env[..i];
      var key := KeyOf(env[i]);
      if key.None? || !drop(key.value) {
        out := out + [env[i]];
      }
    }
    assert env[..|env|] == env;
  }

  // ---- the launcher ----

  predicate Overridden(key: string) {
    key in APP_SERVER_KEYS || key in PROXY_KEYS || key in URL_KEYS || key in CA_KEYS
  }

  predicate DroppedFromBase(key: string) {
    IsRuntime(key) || key in WORKSPACE_KEYS
  }

  predicate DroppedFromExtra(key: string) {
    IsRuntime(key) || PREFIX <= key || Overridden(key)
  }

  function FormatBool(b: bool): string {
    if b then "true" else "false"
  }

  // What the launcher is asked to start.
  datatype Request = Request(baseUrl: string, slimferenceBin: string, upstreamBin: string, supportsWebSockets: bool)

  function Fixed(q: Request): seq<string> {
    [CodexCommand.Entry(CLI_PATH, q.slimferenceBin), CodexCommand.Entry(ACTIVE, "1"),
     CodexCommand.Entry(UPSTREAM_BIN, q.upstreamBin), CodexCommand.Entry(BASE_URL, q.baseUrl),
     CodexCommand.Entry(SUPPORTS_WS, FormatBool(q.supportsWebSockets)),
     CodexCommand.Entry("NO_PROXY", CodexCommand.LOCAL), CodexCommand.Entry("no_proxy", CodexCommand.LOCAL)]
  }

  function FixedValue(key: string, q: Request): string {
    if key == CLI_PATH then q.slimferenceBin
    else if key == ACTIVE then "1"
    else if key == UPSTREAM_BIN then q.upstreamBin
    else if key == BASE_URL then q.baseUrl
    else if key == SUPPORTS_WS then FormatBool(q.supportsWebSockets)
    else CodexCommand.LOCAL
  }

  method BuildAppServerEnv(q: Request, base: seq<string>, extra: seq<string>) returns (out: seq<string>)
    ensures out == LaunchEnv(q, base, extra)
  {
    var kept := Drop(base, DroppedFromBase);
    out := Drop(kept, Overridden);
    out := out + Fixed(q);
    var safe := Drop(extra, DroppedFromExtra);
    out := out + safe;
  }

  function LaunchEnv(q: Request, base: seq<string>, extra: seq<string>): seq<string> {
    Kept(Kept(base, DroppedFromBase), Overridden)
    + Fixed(q)
    + Kept(extra, DroppedFromExtra)
  }

  lemma EntryReads(key: string, value: string)
    requires IsKey(key)
    ensures KeyOf(CodexCommand.Entry(key, value)) == Some(key) && ValueOf(CodexCommand.Entry(key, value)) == value
  {
    var e := CodexCommand.Entry(key, value);
    assert e[|key|] == '=' && forall i :: 0 <= i < |key| ==> e[i] == key[i];
    assert Find(e, '=', 0) == |key|;
    assert e[..|key|] == key && e[|key| + 1..] == value;
  }

  lemma KeyConcat(a: string, b: string)
    requires IsKey(a) && IsKey(b)
    ensures IsKey(a + b)
  {
  }

  lemma FixedKeys()
    ensures IsKey(CLI_PATH) && IsKey("NO_PROXY") && IsKey("no_proxy")
    ensures IsKey(ACTIVE) && IsKey(UPSTREAM_BIN) && IsKey(BASE_URL) && IsKey(SUPPORTS_WS)
  {
    KeyConcat(PREFIX, "ACTIVE");
    KeyConcat(PREFIX, "UPSTREAM_BIN");
    KeyConcat(PREFIX, "BASE_URL");
    KeyConcat(PREFIX, "SUPPORTS_WEBSOCKETS");
  }

  lemma LookupEntry(env: seq<string>, name: string, value: string, key: string)
    requires IsKey(name)
    ensures Lookup(env + [CodexCommand.Entry(name, value)], key)
         == if key == name then Some(value) else Lookup(env, key)
  {
    hide KeyOf, ValueOf, IsKey, CodexCommand.Entry;
    EntryReads(name, value);
    assert (env + [CodexCommand.Entry(name, value)])[..|env|] == env;
  }

  lemma DistinctKeys()
    ensures |ACTIVE| == 32 && |UPSTREAM_BIN| == 38 && |BASE_URL| == 34 && |SUPPORTS_WS| == 45 && |CLI_PATH| == 14
    ensures "NO_PROXY" != "no_proxy" && |"NO_PROXY"| == 8 && |"no_proxy"| == 8
  {
    assert "NO_PROXY"[0] != "no_proxy"[0];
  }

  lemma FixedLooksUp(key: string, q: Request)
    ensures Lookup(Fixed(q), key) ==
      if key in APP_SERVER_KEYS then Some(FixedValue(key, q)) else None
  {
    hide Lookup, CodexCommand.Entry, IsKey, FormatBool;
    var all := Fixed(q);
    FixedKeys();
    DistinctKeys();
    LookupEntry([], CLI_PATH, q.slimferenceBin, key);
    LookupEntry(all[..1], ACTIVE, "1", key);
    LookupEntry(all[..2], UPSTREAM_BIN, q.upstreamBin, key);
    LookupEntry(all[..3], BASE_URL, q.baseUrl, key);
    LookupEntry(all[..4], SUPPORTS_WS, FormatBool(q.supportsWebSockets), key);
    LookupEntry(all[..5], "NO_PROXY", CodexCommand.LOCAL, key);
    LookupEntry(all[..6], "no_proxy", CodexCommand.LOCAL, key);
    NothingInNone(key);
    assert [] + [all[0]] == all[..1] && all[..1] + [all[1]] == all[..2] && all[..2] + [all[2]] == all[..3];
    assert all[..3] + [all[3]] == all[..4] && all[..4] + [all[4]] == all[..5] && all[..5] + [all[5]] == all[..6];
    assert all[..6] + [all[6]] == all;
  }

  lemma NothingInNone(key: string)
    ensures Lookup([], key) == None
  {
  }
}
