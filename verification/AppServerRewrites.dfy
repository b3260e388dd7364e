// The two rewrites of the Codex Desktop app-server stream
// (cmd/slimference/codex_desktop_app_server_shim.go).
module AppServerRewrites {
  import opened Basics
  import opened TextLines
  import opened JsonLines

  // A line is kept, or replaced, or ends the process: writing a member into the nil map
  // that a JSON null is read as panics.
  datatype Outcome = Keep | Change(text: string) | Crash

  type Members = map<string, Json>

  function MethodOf(msg: Members): string {
    if "method" in msg && msg["method"].Str? then msg["method"].text else ""
  }

  predicate IsRealtime(params: Members) {
    if "config" !in params || params["config"].Null? then false
    else if !params["config"].Object? then true
    else
      var config := params["config"].members;
      if "features.realtime_conversation" !in config then false
      else match config["features.realtime_conversation"]
        case Bool(enabled) => enabled
        case Null => false
        case _ => true
  }

  predicate HasProvider(params: Members) {
    "modelProvider" in params && !params["modelProvider"].Null?
  }

  function WithProvider(msg: Members, params: Members): Members {
    msg["params" := Object(params["modelProvider" := Str(PROVIDER_ID)])]
  }

  function RewriteThreadStart(c: Codec, content: string): Outcome {
    match c.ReadObject(content)
    case None => Keep
    case Some(msg) =>
      if MethodOf(msg) != "thread/start" || "params" !in msg then Keep
      else match msg["params"]
        case Object(params) =>
          if HasProvider(params) || IsRealtime(params) then Keep
          else Change(c.print_(Object(WithProvider(msg, params))))
        case Null => Crash
        case _ => Keep
  }

  function Entry(p: Provider): Members {
    var url, ws := Str(p.baseUrl), Bool(p.supportsWebSockets);
    map["id" := Str(PROVIDER_ID),
      "name" := Str("Slimference"), "displayName" := Str("Slimference"), "label" := Str("Slimference"),
      "base_url" := url, "baseUrl" := url, "baseURL" := url,
      "requires_openai_auth" := Bool(true), "requiresOpenAIAuth" := Bool(true), "requiresOpenAiAuth" := Bool(true),
      "supports_websockets" := ws, "supportsWebSockets" := ws, "supportsWebsockets" := ws,
      "wire_api" := Str("responses"), "wireApi" := Str("responses"), "wireAPI" := Str("responses")]
  }

  function Providers(p: Provider): Json {
    Object(map[PROVIDER_ID := Object(Entry(p))])
  }

  function WithRoute(config: Members, p: Provider): Members {
    var routed := config["model_provider" := Str(PROVIDER_ID)]["modelProvider" := Str(PROVIDER_ID)];
    if p.baseUrl == "" then routed
    else routed["model_providers" := Providers(p)]["modelProviders" := Providers(p)]
  }

  function WithConfig(msg: Members, result: Members, config: Members): Members {
    msg["result" := Object(result["config" := Object(config)])]
  }

  function RewriteConfig(c: Codec, p: Provider, content: string): Outcome {
    match c.ReadObject(content)
    case None => Keep
    case Some(msg) =>
      if "result" !in msg || !msg["result"].Object? || "config" !in msg["result"].members then Keep
      else
        var result := msg["result"].members;
        match result["config"]
        case Object(config) => Change(c.print_(Object(WithConfig(msg, result, WithRoute(config, p)))))
        case Null => Crash
        case _ => Keep
  }

  // ---- what the rewrites do to the messages ----

  // a and b have the same members, but for those named.
  ghost predicate AgreeBut(a: Members, b: Members, names: set<string>) {
    forall k :: k !in names ==> (k in a <==> k in b) && (k in a ==> a[k] == b[k])
  }

  predicate HasMethod(msg: Members, name: string) {
    "method" in msg && msg["method"] == Str(name)
  }

  predicate Unset(members: Members, key: string) {
    key in members ==> members[key] == Null
  }

  // A voice thread has a config that is no object, or one in which the feature is there
  // and is anything but null or false.
  ghost predicate IsVoice(params: Members) {
    exists config :: "config" in params && params["config"] == config && config != Null
      && (config.Object? ==> exists feature :: FeatureIs(config.members, feature) && feature !in {Null, Bool(false)})
  }

  predicate FeatureIs(config: Members, feature: Json) {
    "features.realtime_conversation" in config && config["features.realtime_conversation"] == feature
  }

  // A default-provider request to start a thread that is not a voice thread.
  ghost predicate StartsByDefault(msg: Members) {
    && HasMethod(msg, "thread/start") && "params" in msg && msg["params"].Object?
    && Unset(msg["params"].members, "modelProvider") && !IsVoice(msg["params"].members)
  }

  // Such requests are the ones changed, null parameters panic, all else is kept.
  lemma ThreadStartOutcome(c: Codec, content: string)
    ensures var msg := c.ReadObject(content); var o := RewriteThreadStart(c, content);
      && (o.Change? <==> msg.Some? && StartsByDefault(msg.value))
      && (o.Crash? <==> msg.Some? && HasMethod(msg.value, "thread/start")
                        && "params" in msg.value && msg.value["params"].Null?)
  {
    if c.ReadObject(content).Some? {
      var msg := c.ReadObject(content).value;
      if "params" in msg && msg["params"].Object? {
        VoiceIsRealtime(msg["params"].members);
      }
    }
  }

  lemma VoiceIsRealtime(params: Members)
    ensures IsRealtime(params) <==> IsVoice(params)
  {
    if "config" in params && params["config"].Object? {
      var config := params["config"].members;
      if "features.realtime_conversation" in config {
        assert FeatureIs(config, config["features.realtime_conversation"]);
      }
    }
  }

  // A message whose result holds a config.
  predicate HoldsConfig(msg: Members, config: Json) {
    && "result" in msg && msg["result"].Object?
    && "config" in msg["result"].members && msg["result"].members["config"] == config
  }

  // Responses with a config object are changed, a null config panics, all else is kept.
  lemma ConfigOutcome(c: Codec, p: Provider, content: string)
    ensures var msg := c.ReadObject(content); var o := RewriteConfig(c, p, content);
      && (o.Change? <==> msg.Some? && exists m :: HoldsConfig(msg.value, Object(m)))
      && (o.Crash? <==> msg.Some? && HoldsConfig(msg.value, Null))
  {
    hide WithRoute;
    var msg := c.ReadObject(content);
    if msg.Some? && "result" in msg.value && msg.value["result"].Object? && "config" in msg.value["result"].members {
      var config := msg.value["result"].members["config"];
      if config.Object? {
        assert HoldsConfig(msg.value, Object(config.members));
      }
    }
  }

  // ---- the new messages are well-formed ----

  lemma Setting(members: Members, key: string, j: Json, depth: nat)
    requires depth > 0 && WellFormed(Object(members), depth) && WellFormed(j, depth - 1)
    ensures WellFormed(Object(members[key := j]), depth)
  {
  }

  lemma Member(members: Members, key: string, depth: nat)
    requires WellFormed(Object(members), depth) && key in members
    ensures depth > 0 && WellFormed(members[key], depth - 1)
  {
  }

  lemma Deeper(j: Json, depth: nat, more: nat)
    requires WellFormed(j, depth) && depth <= more
    ensures WellFormed(j, more)
    decreases depth
  {
    match j
    case Array(items) =>
      forall i | 0 <= i < |items| ensures WellFormed(items[i], more - 1) {
        Deeper(items[i], depth - 1, more - 1);
      }
    case Object(members) =>
      forall k | k in members ensures WellFormed(members[k], more - 1) {
        Deeper(members[k], depth - 1, more - 1);
      }
    case _ =>
  }

  lemma WithProviderIsMessage(msg: Members, params: Members)
    requires IsMessage(msg) && "params" in msg && msg["params"] == Object(params)
    ensures IsMessage(WithProvider(msg, params))
  {
    hide WellFormed;
    Member(msg, "params", MAX_DEPTH);
    TextIsWellFormed(MAX_DEPTH - 2);
    Setting(params, "modelProvider", Str(PROVIDER_ID), MAX_DEPTH - 1);
    Setting(msg, "params", Object(params["modelProvider" := Str(PROVIDER_ID)]), MAX_DEPTH);
  }

  lemma TextIsWellFormed(depth: nat)
    ensures WellFormed(Str(PROVIDER_ID), depth)
  {
  }

  lemma ProvidersAreWellFormed(p: Provider)
    ensures WellFormed(Providers(p), 2)
  {
  }

  lemma WithRouteIsWellFormed(config: Members, p: Provider, depth: nat)
    requires depth >= 3 && WellFormed(Object(config), depth)
    ensures WellFormed(Object(WithRoute(config, p)), depth)
  {
    hide WellFormed, Providers;
    TextIsWellFormed(depth - 1);
    ProvidersAreWellFormed(p);
    Deeper(Providers(p), 2, depth - 1);
    var named := config["model_provider" := Str(PROVIDER_ID)];
    Setting(config, "model_provider", Str(PROVIDER_ID), depth);
    Setting(named, "modelProvider", Str(PROVIDER_ID), depth);
    var routed := named["modelProvider" := Str(PROVIDER_ID)];
    Setting(routed, "model_providers", Providers(p), depth);
    Setting(routed["model_providers" := Providers(p)], "modelProviders", Providers(p), depth);
  }

  lemma WithConfigIsMessage(msg: Members, result: Members, config: Members, p: Provider)
    requires IsMessage(msg) && "result" in msg && msg["result"] == Object(result)
    requires "config" in result && result["config"] == Object(config)
    ensures IsMessage(WithConfig(msg, result, WithRoute(config, p)))
  {
    hide WellFormed, WithRoute;
    Member(msg, "result", MAX_DEPTH);
    Member(result, "config", MAX_DEPTH - 1);
    WithRouteIsWellFormed(config, p, MAX_DEPTH - 2);
    Setting(result, "config", Object(WithRoute(config, p)), MAX_DEPTH - 1);
    Setting(msg, "result", Object(result["config" := Object(WithRoute(config, p))]), MAX_DEPTH);
  }

  // ---- what a reader finds ----

  predicate Holds(members: Members, key: string, j: Json) {
    key in members && members[key] == j
  }

  // A table of providers with an entry for this one, in every spelling that is read.
  predicate ListsProvider(p: Provider, table: Json) {
    table.Object? && "slimference-codex" in table.members && table.members["slimference-codex"].Object?
    && var entry := table.members["slimference-codex"].members;
       && Names(entry) && Urls(entry, p.baseUrl) && Auth(entry) && WebSockets(entry, p.supportsWebSockets)
       && Wire(entry)
  }

  predicate Names(entry: Members) {
    && Holds(entry, "id", Str("slimference-codex")) && Holds(entry, "name", Str("Slimference"))
    && Holds(entry, "displayName", Str("Slimference")) && Holds(entry, "label", Str("Slimference"))
  }

  predicate Urls(entry: Members, url: string) {
    Holds(entry, "base_url", Str(url)) && Holds(entry, "baseUrl", Str(url)) && Holds(entry, "baseURL", Str(url))
  }

  predicate Auth(entry: Members) {
    && Holds(entry, "requires_openai_auth", Bool(true)) && Holds(entry, "requiresOpenAIAuth", Bool(true))
    && Holds(entry, "requiresOpenAiAuth", Bool(true))
  }

  predicate WebSockets(entry: Members, flag: bool) {
    && Holds(entry, "supports_websockets", Bool(flag)) && Holds(entry, "supportsWebSockets", Bool(flag))
    && Holds(entry, "supportsWebsockets", Bool(flag))
  }

  predicate Wire(entry: Members) {
    && Holds(entry, "wire_api", Str("responses")) && Holds(entry, "wireApi", Str("responses"))
    && Holds(entry, "wireAPI", Str("responses"))
  }

  // A config that names the provider, and lists it if it has a base URL.
  ghost predicate RoutedTo(p: Provider, was: Members, now: Members) {
    && Holds(now, "model_provider", Str("slimference-codex")) && Holds(now, "modelProvider", Str("slimference-codex"))
    && (p.baseUrl != "" ==>
          && AgreeBut(was, now, {"model_provider", "modelProvider", "model_providers", "modelProviders"})
          && "model_providers" in now && ListsProvider(p, now["model_providers"])
          && "modelProviders" in now && ListsProvider(p, now["modelProviders"]))
    && (p.baseUrl == "" ==> AgreeBut(was, now, {"model_provider", "modelProvider"}))
  }

  lemma ProviderIsListed(p: Provider)
    ensures ListsProvider(p, Providers(p))
  {
    hide Names, Urls, Auth, WebSockets, Wire, Entry;
    EntryNames(p);
    EntryUrls(p);
    EntryAuth(p);
    EntryWebSockets(p);
    EntryWire(p);
  }

  lemma EntryNames(p: Provider)
    ensures Names(Entry(p))
  {
  }

  lemma EntryUrls(p: Provider)
    ensures Urls(Entry(p), p.baseUrl)
  {
  }

  lemma EntryAuth(p: Provider)
    ensures Auth(Entry(p))
  {
  }

  lemma EntryWebSockets(p: Provider)
    ensures WebSockets(Entry(p), p.supportsWebSockets)
  {
  }

  lemma EntryWire(p: Provider)
    ensures Wire(Entry(p))
  {
  }

  lemma RouteReads(config: Members, p: Provider)
    ensures RoutedTo(p, config, WithRoute(config, p))
  {
    hide Providers, ListsProvider;
    ProviderIsListed(p);
  }

  // A changed request reads back with the shim's provider, and otherwise unchanged.
  lemma ThreadStartReads(c: Codec, content: string)
    requires c.Lawful() && RewriteThreadStart(c, content).Change?
    ensures OneLine(RewriteThreadStart(c, content).text) && RewriteThreadStart(c, content).text != ""
    ensures var after := c.ReadObject(RewriteThreadStart(c, content).text); var before := c.ReadObject(content);
      && after.Some? && before.Some? && AgreeBut(before.value, after.value, {"params"})
      && "params" in after.value && after.value["params"].Object?
      && "params" in before.value && before.value["params"].Object?
      && var was, now := before.value["params"].members, after.value["params"].members;
         AgreeBut(was, now, {"modelProvider"}) && Holds(now, "modelProvider", Str("slimference-codex"))
         && StartsByDefault(before.value)
  {
    hide WellFormed;
    ThreadStartOutcome(c, content);
    var msg := c.ReadObject(content).value;
    ReadIsMessage(c, content);
    WithProviderIsMessage(msg, msg["params"].members);
    PrintedReads(c, WithProvider(msg, msg["params"].members));
  }

  // The request is then left alone.
  lemma ThreadStartTwice(c: Codec, content: string)
    requires c.Lawful() && RewriteThreadStart(c, content).Change?
    ensures RewriteThreadStart(c, RewriteThreadStart(c, content).text) == Keep
  {
    ThreadStartReads(c, content);
  }

  lemma ConfigReads(c: Codec, p: Provider, content: string)
    requires c.Lawful() && RewriteConfig(c, p, content).Change?
    ensures OneLine(RewriteConfig(c, p, content).text) && RewriteConfig(c, p, content).text != ""
    ensures var after := c.ReadObject(RewriteConfig(c, p, content).text); var before := c.ReadObject(content);
      && after.Some? && before.Some? && AgreeBut(before.value, after.value, {"result"})
      && "result" in after.value && after.value["result"].Object?
      && "result" in before.value && before.value["result"].Object?
      && var was, now := before.value["result"].members, after.value["result"].members;
         AgreeBut(was, now, {"config"}) && "config" in was && was["config"].Object?
         && "config" in now && now["config"].Object?
         && RoutedTo(p, was["config"].members, now["config"].members)
  {
    hide WithRoute, WellFormed, RoutedTo;
    var msg := c.ReadObject(content).value;
    var result := msg["result"].members;
    ReadIsMessage(c, content);
    WithConfigIsMessage(msg, result, result["config"].members, p);
    RouteReads(result["config"].members, p);
    PrintedReads(c, WithConfig(msg, result, WithRoute(result["config"].members, p)));
  }

  lemma RouteTwice(config: Members, p: Provider)
    ensures WithRoute(WithRoute(config, p), p) == WithRoute(config, p)
  {
    hide Providers;
  }

  // Rewriting a response again yields the same bytes.
  lemma ConfigTwice(c: Codec, p: Provider, content: string)
    requires c.Lawful() && RewriteConfig(c, p, content).Change?
    ensures RewriteConfig(c, p, RewriteConfig(c, p, content).text) == RewriteConfig(c, p, content)
  {
    hide WithRoute, WellFormed;
    var before := c.ReadObject(content).value;
    var result := before["result"].members;
    var config := WithRoute(result["config"].members, p);
    var after := WithConfig(before, result, config);
    ReadIsMessage(c, content);
    WithConfigIsMessage(before, result, result["config"].members, p);
    PrintedReads(c, after);
    RouteTwice(result["config"].members, p);
    var routed := after["result"].members;
    assert routed == result["config" := Object(config)];
    assert routed["config" := Object(config)] == routed;
    assert WithConfig(after, routed, config) == after;
  }
}
