// One decision-log record and what it adds to a session row
// (cmd/slimference/savings_cmd.go, the body of the loop over the log).
module SavingsRecords {
  import opened Basics
  import opened Strs
  import opened SavingsSums
  import Negative = SavingsNegative

  datatype Mechanism = Mechanism(
    name: string, layer: int, source: string,
    original: int, final: int, saved: int, added: int, net: int,
    footprintBucket: string, footprintScore: int)

  datatype Action = ActionApplied | ActionFullPass | ActionFailedOpen | ActionSkipped | ActionOther

  datatype Decision = Decision(
    action: Action, contentClass: string, safetyClass: string, signals: seq<string>,
    net: int, cacheImpact: string, footprintBucket: string, footprintScore: int)

  // A zero timestamp is None.
  datatype Record = Record(
    timestamp: Option<int>, sessionID: string, source: string, provider: string, path: string,
    clientFamily: string, routeMode: string,
    bypassReason: string, previousResponseIDUsed: bool,
    original: int, afterLayer0: int, afterLayer1: int, final: int, saved: int,
    cacheRead: int, cacheCreate: int, providerCached: int, providerInput: int, providerOutput: int, output: int,
    reduceApplied: bool, reduceAdded: int, toolPruneSaved: int,
    mechanisms: seq<Mechanism>, decisions: seq<Decision>)

  function DecisionSessionID(r: Record): string {
    var id := TrimSpace(r.sessionID);
    if id != "" && ToLower(id) != "empty" then id
    else if TrimSpace(r.source) != "" then "no-session:" + TrimSpace(r.source)
    else "no-session:unknown"
  }

  function ClientFamily(r: Record): string {
    var value := ToLower(TrimSpace(r.clientFamily));
    var source := ToLower(TrimSpace(r.source));
    if value != "" then value
    else if Contains(source, "cli") then "codex_cli"
    else if Contains(source, "desktop") || Contains(source, "app") then "codex_desktop_app"
    else ""
  }

  function RouteMode(r: Record): string {
    var mode := ToLower(TrimSpace(r.routeMode));
    var id := ToLower(TrimSpace(r.sessionID));
    var source := ToLower(TrimSpace(r.source));
    if mode != "" then mode
    else if "codex-wss:" <= id then "websocket_phasef"
    else if "codex-http:" <= id then "codex_http"
    else if "codex-local:" <= id then "codex_local"
    else if Contains(source, "hook") then "hook"
    else if source != "" then source
    else "unknown_route"
  }

  predicate IsAttributedSession(id: string) {
    "codex-wss:" <= id || "codex-wss_" <= id || "codex-http:" <= id || "codex-http_" <= id
    || "codex-local:" <= id || "codex-local_" <= id
  }

  predicate IsCodexCandidate(r: Record, sessionID: string) {
    var path := ToLower(TrimSpace(r.path));
    (Contains(ToLower(TrimSpace(r.provider)), "codex")
     || Contains(ToLower(TrimSpace(r.clientFamily)), "codex")
     || Contains(ToLower(TrimSpace(r.source)), "codex")
     || IsAttributedSession(TrimSpace(r.sessionID))
     || IsAttributedSession(TrimSpace(sessionID)))
    && (path == "" || Contains(path, "responses") || Contains(path, "chat/completions"))
  }

  predicate IsAttributed(r: Record, sessionID: string) {
    IsAttributedSession(TrimSpace(r.sessionID)) || IsAttributedSession(sessionID)
  }

  predicate IsUpstreamError(r: Record) {
    Contains(ToLower(TrimSpace(r.bypassReason)), "upstream_error")
  }

  function EventOf(r: Record): Negative.Event {
    Negative.Event(r.timestamp, r.original, IsUpstreamError(r), r.previousResponseIDUsed)
  }

  function PositiveDelta(before: int, after: int): int {
    if before <= 0 || after <= 0 || before <= after then 0 else before - after
  }

  function Read(r: Record): int {
    r.cacheRead + r.providerCached
  }

  function ReduceNet(r: Record): int {
    if !r.reduceApplied && r.reduceAdded == 0 then 0 else -r.reduceAdded
  }

  function Layer2Fallback(r: Record): int {
    var net := r.cacheRead + r.providerCached - r.cacheCreate;
    if net == 0 then PositiveDelta(r.afterLayer1, r.final) else net
  }

  function MechanismLayer(m: Mechanism): Option<LayerIndex> {
    var name := TrimSpace(m.name);
    var source := TrimSpace(m.source);
    if name == "provider_prompt_cache" || source == "cache_accounting" then Some(Layer2)
    else if name == "tool_prune" || source == "tool_prune"
      || name == "output_reduce_directive" || source == "output_reduce"
    then None
    else if m.layer == 1 then Some(Layer1)
    else if m.layer == 2 then Some(Layer2)
    else if m.layer == 3 then Some(Layer3)
    else if m.layer == 0 && (source == "decision_entry" || source == "evidence_decision") then Some(Layer0)
    else None
  }

  predicate Counted(m: Mechanism) {
    m.name != "" && m.name != "request_total"
    && !(m.original == 0 && m.final == 0 && m.saved == 0 && m.added == 0 && m.net == 0)
  }

  function Clamp01(ratio: real): real {
    if ratio < 0.0 then 0.0 else if ratio > 1.0 then 1.0 else ratio
  }

  function CompoundedEstimate(m: Mechanism, remaining: int, ratio: real): int {
    if m.saved <= 0 || !(m.footprintScore > 0 || TrimSpace(m.footprintBucket) != "") then 0
    else (m.saved as real * Max(remaining, 1) as real * Clamp01(ratio)).Floor
  }

  // What the accumulator reads off a mechanism: its trimmed footprint bucket, the
  // layer its net tokens belong to, and its compounded estimate.
  datatype Reading = Reading(bucket: string, layer: Option<LayerIndex>, estimate: int)

  function ReadMechanism(m: Mechanism, remaining: int, ratio: real): Reading {
    Reading(TrimSpace(m.footprintBucket), MechanismLayer(m), CompoundedEstimate(m, remaining, ratio))
  }

  // ---- what the readings mean ----

  // The trimmed text in lower case says the word somewhere, or first.
  ghost predicate Says(text: string, word: string) {
    exists i :: OccursAt(ToLower(TrimSpace(text)), word, i)
  }

  lemma SaysMeans(text: string, word: string)
    ensures Contains(ToLower(TrimSpace(text)), word) <==> Says(text, word)
  {
    ContainsMeans(ToLower(TrimSpace(text)), word);
  }

  lemma LowerBlank(text: string)
    ensures ToLower(TrimSpace(text)) == "" <==> Blank(text)
  {
    TrimsToNothing(text);
    assert |ToLower(TrimSpace(text))| == |TrimSpace(text)|;
  }

  lemma SessionIDMeans(r: Record)
    ensures var id := DecisionSessionID(r);
      var named := !Blank(r.sessionID) && ToLower(TrimSpace(r.sessionID)) != "empty";
      && (named ==> id == TrimSpace(r.sessionID))
      && (!named && !Blank(r.source) ==> id == "no-session:" + TrimSpace(r.source))
      && (!named && Blank(r.source) ==> id == "no-session:unknown")
  {
    TrimsToNothing(r.sessionID);
    TrimsToNothing(r.source);
  }

  lemma ClientFamilyMeans(r: Record)
    ensures !Blank(r.clientFamily) ==> ClientFamily(r) == ToLower(TrimSpace(r.clientFamily))
    ensures Blank(r.clientFamily) ==>
      && (Says(r.source, "cli") ==> ClientFamily(r) == "codex_cli")
      && (!Says(r.source, "cli") && (Says(r.source, "desktop") || Says(r.source, "app")) ==>
            ClientFamily(r) == "codex_desktop_app")
      && (!Says(r.source, "cli") && !Says(r.source, "desktop") && !Says(r.source, "app") ==> ClientFamily(r) == "")
  {
    hide TrimSpace, ToLower, Contains, Says;
    LowerBlank(r.clientFamily);
    SaysMeans(r.source, "cli");
    SaysMeans(r.source, "desktop");
    SaysMeans(r.source, "app");
  }

  ghost predicate Starts(text: string, word: string) {
    OccursAt(ToLower(TrimSpace(text)), word, 0)
  }

  lemma StartsMeans(text: string, word: string)
    ensures word <= ToLower(TrimSpace(text)) <==> Starts(text, word)
  {
    hide TrimSpace, ToLower;
    var s := ToLower(TrimSpace(text));
    assert |word| <= |s| ==> s[0..0 + |word|] == s[..|word|];
  }

  lemma RouteModeMeans(r: Record)
    ensures !Blank(r.routeMode) ==> RouteMode(r) == ToLower(TrimSpace(r.routeMode))
    ensures Blank(r.routeMode) && Starts(r.sessionID, "codex-wss:") ==> RouteMode(r) == "websocket_phasef"
    ensures Blank(r.routeMode) && Starts(r.sessionID, "codex-http:") ==> RouteMode(r) == "codex_http"
    ensures Blank(r.routeMode) && Starts(r.sessionID, "codex-local:") ==> RouteMode(r) == "codex_local"
    ensures var local := Starts(r.sessionID, "codex-wss:") || Starts(r.sessionID, "codex-http:")
        || Starts(r.sessionID, "codex-local:");
      Blank(r.routeMode) && !local ==>
      && (Says(r.source, "hook") ==> RouteMode(r) == "hook")
      && (!Says(r.source, "hook") && !Blank(r.source) ==> RouteMode(r) == ToLower(TrimSpace(r.source)))
      && (!Says(r.source, "hook") && Blank(r.source) ==> RouteMode(r) == "unknown_route")
  {
    hide TrimSpace, ToLower, Contains, Says, Starts;
    LowerBlank(r.routeMode);
    LowerBlank(r.source);
    SaysMeans(r.source, "hook");
    StartsMeans(r.sessionID, "codex-wss:");
    StartsMeans(r.sessionID, "codex-http:");
    StartsMeans(r.sessionID, "codex-local:");
    PrefixesDiffer(ToLower(TrimSpace(r.sessionID)));
  }

  lemma PrefixesDiffer(id: string)
    ensures "codex-wss:" <= id ==> !("codex-http:" <= id) && !("codex-local:" <= id)
    ensures "codex-http:" <= id ==> !("codex-local:" <= id)
  {
    if "codex-wss:" <= id {
      assert id[6] == 'w';
    }
    if "codex-http:" <= id {
      assert id[6] == 'h';
    }
    if "codex-local:" <= id {
      assert id[6] == 'l';
    }
  }

  // One of three families, then a colon or an underscore.
  lemma AttributedMeans(id: string)
    ensures IsAttributedSession(id) <==> exists family: string ::
      family in ["codex-wss", "codex-http", "codex-local"] && |id| > |family| && id[..|family|] == family
      && id[|family|] in ":_"
  {
    FamilyPrefix(id, "codex-wss");
    FamilyPrefix(id, "codex-http");
    FamilyPrefix(id, "codex-local");
    assert "codex-wss" + ":" == "codex-wss:" && "codex-wss" + "_" == "codex-wss_";
    assert "codex-http" + ":" == "codex-http:" && "codex-http" + "_" == "codex-http_";
    assert "codex-local" + ":" == "codex-local:" && "codex-local" + "_" == "codex-local_";
  }

  lemma FamilyPrefix(id: string, family: string)
    ensures family + ":" <= id || family + "_" <= id <==>
      |id| > |family| && id[..|family|] == family && id[|family|] in ":_"
  {
    if |id| > |family| && id[..|family|] == family {
      assert id[..|family| + 1] == family + [id[|family|]];
    }
    if family + ":" <= id {
      assert id[|family|] == (family + ":")[|family|] && id[..|family|] == (family + ":")[..|family|];
    }
    if family + "_" <= id {
      assert id[|family|] == (family + "_")[|family|] && id[..|family|] == (family + "_")[..|family|];
    }
  }

  lemma CandidateMeans(r: Record, sessionID: string)
    ensures IsCodexCandidate(r, sessionID) <==>
      (Says(r.provider, "codex") || Says(r.clientFamily, "codex") || Says(r.source, "codex")
       || IsAttributedSession(TrimSpace(r.sessionID)) || IsAttributedSession(TrimSpace(sessionID)))
      && (Blank(r.path) || Says(r.path, "responses") || Says(r.path, "chat/completions"))
    ensures IsAttributed(r, sessionID) <==>
      IsAttributedSession(TrimSpace(r.sessionID)) || IsAttributedSession(sessionID)
  {
    hide TrimSpace, ToLower, Contains, Says, IsAttributedSession;
    SaysMeans(r.provider, "codex");
    SaysMeans(r.clientFamily, "codex");
    SaysMeans(r.source, "codex");
    SaysMeans(r.path, "responses");
    SaysMeans(r.path, "chat/completions");
    LowerBlank(r.path);
  }

  lemma EventReads(r: Record)
    ensures var e := EventOf(r);
      && e.timestamp == r.timestamp && e.original == r.original && e.continues == r.previousResponseIDUsed
      && (e.error <==> Says(r.bypassReason, "upstream_error"))
  {
    SaysMeans(r.bypassReason, "upstream_error");
  }

  // A layer is credited with what it took off, if both counts are known.
  lemma DeltaMeans(before: int, after: int)
    ensures before > 0 && after > 0 ==> PositiveDelta(before, after) == Max(before - after, 0)
    ensures before <= 0 || after <= 0 ==> PositiveDelta(before, after) == 0
  {
  }

  // The layers that no mechanism names.
  lemma FallbackMeans(r: Record)
    ensures var cached := r.cacheRead + r.providerCached - r.cacheCreate;
      && (cached != 0 ==> Layer2Fallback(r) == cached)
      && (cached == 0 ==> Layer2Fallback(r) == PositiveDelta(r.afterLayer1, r.final))
    ensures r.mechanisms == [] ==>
      LayerFallback(r, Layer0) == PositiveDelta(r.original, r.afterLayer0)
      && LayerFallback(r, Layer1) == PositiveDelta(r.afterLayer0, r.afterLayer1)
      && LayerFallback(r, Layer2) == Layer2Fallback(r) && LayerFallback(r, Layer3) == 0
  {
  }

  // What a record counts by itself.
  lemma BaseReads(r: Record)
    ensures BaseAmount(r, CacheRead) == r.cacheRead + r.providerCached
    ensures BaseAmount(r, CacheNet) == r.cacheRead + r.providerCached - r.cacheCreate
    ensures BaseAmount(r, CacheHitRequests) == if r.cacheRead + r.providerCached > 0 then 1 else 0
    ensures BaseAmount(r, OutputReduce) == -r.reduceAdded && BaseAmount(r, ToolPrune) == r.toolPruneSaved
    ensures BaseAmount(r, Output) >= r.output && BaseAmount(r, Output) >= r.providerOutput
    ensures BaseAmount(r, Output) in {r.output, r.providerOutput}
    ensures BaseAmount(r, Requests) == 1 && BaseAmount(r, ProviderInput) == r.providerInput
    ensures BaseAmount(r, Original) == r.original && BaseAmount(r, Final) == r.final
    ensures BaseAmount(r, LocalSaved) == BaseAmount(r, NetSaved) == r.saved
    ensures BaseAmount(r, CacheCreate) == r.cacheCreate
  {
  }

  // Names and sources are compared trimmed; a cache mechanism is layer two whatever it says.
  lemma MechanismLayerMeans(m: Mechanism)
    ensures var name, source := TrimSpace(m.name), TrimSpace(m.source);
      var cache := name == "provider_prompt_cache" || source == "cache_accounting";
      var tool := name in ["tool_prune", "output_reduce_directive"] || source in ["tool_prune", "output_reduce"];
      && (MechanismLayer(m) == Some(Layer2) <==> cache || (!tool && m.layer == 2))
      && (MechanismLayer(m) == Some(Layer1) <==> !cache && !tool && m.layer == 1)
      && (MechanismLayer(m) == Some(Layer3) <==> !cache && !tool && m.layer == 3)
      && (MechanismLayer(m) == Some(Layer0) <==>
            !cache && !tool && m.layer == 0 && source in ["decision_entry", "evidence_decision"])
  {
    hide TrimSpace;
  }

  lemma CountedMeans(m: Mechanism)
    ensures var tokens := [m.original, m.final, m.saved, m.added, m.net];
      Counted(m) <==> m.name !in ["", "request_total"] && tokens != [0, 0, 0, 0, 0]
  {
    var tokens := [m.original, m.final, m.saved, m.added, m.net];
    assert tokens == [0, 0, 0, 0, 0] <==> m.original == m.final == m.saved == m.added == m.net == 0 by {
      if tokens == [0, 0, 0, 0, 0] {
        assert tokens[0] == tokens[1] == tokens[2] == tokens[3] == tokens[4] == 0;
      }
    }
  }

  // The factor that a ratio stands for: ratios outside [0, 1] count as the nearer end.
  predicate IsPrice(ratio: real, price: real) {
    && (0.0 <= ratio <= 1.0 ==> price == ratio) && (ratio < 0.0 ==> price == 0.0) && (ratio > 1.0 ==> price == 1.0)
  }

  lemma PriceOf(ratio: real)
    ensures 0.0 <= ratio <= 1.0 ==> IsPrice(ratio, ratio)
    ensures ratio < 0.0 ==> IsPrice(ratio, 0.0)
    ensures ratio > 1.0 ==> IsPrice(ratio, 1.0)
  {
  }

  // Tokens saved once are saved again in every request still to come, at the ratio.
  lemma EstimateMeans(m: Mechanism, remaining: int, ratio: real, price: real)
    requires IsPrice(ratio, price)
    ensures var x := CompoundedEstimate(m, remaining, ratio);
      var footprint := m.footprintScore > 0 || !Blank(m.footprintBucket);
      && (m.saved > 0 && footprint ==>
            x as real <= m.saved as real * Max(remaining, 1) as real * price < x as real + 1.0)
      && (m.saved <= 0 || !footprint ==> x == 0)
  {
    TrimsToNothing(m.footprintBucket);
  }

  lemma MechanismReads(m: Mechanism, remaining: int, ratio: real)
    ensures var x := ReadMechanism(m, remaining, ratio);
      x.bucket == TrimSpace(m.footprintBucket) && x.layer == MechanismLayer(m)
      && x.estimate == CompoundedEstimate(m, remaining, ratio)
  {
  }

  lemma TallyReads(d: Decision)
    ensures var t := DecisionTally(d);
      && t.decisions == 1 && t.netTokens == d.net && t.footprintScore == d.footprintScore
      && (d.action == ActionApplied <==> t.applied == 1) && (d.action != ActionApplied <==> t.applied == 0)
      && (d.action == ActionFullPass <==> t.fullPass == 1) && (d.action != ActionFullPass <==> t.fullPass == 0)
      && (d.action == ActionFailedOpen <==> t.failedOpen == 1) && (d.action != ActionFailedOpen <==> t.failedOpen == 0)
      && (d.action == ActionSkipped <==> t.skipped == 1) && (d.action != ActionSkipped <==> t.skipped == 0)
  {
  }

  // ---- what one mechanism, one evidence decision and one record contribute ----

  function MechanismAmount(m: Mechanism, x: Reading, f: Field): int {
    if !Counted(m) then 0
    else
      match f
      case Added => m.added
      case FootprintScore => if m.footprintScore <= 0 && x.bucket == "" then 0 else m.footprintScore
      case Bucket(name) => if x.bucket != "" && x.bucket == name then 1 else 0
      case Compounded => Max(x.estimate, 0)
      case InLayer(layer) => if x.layer == Some(layer) then m.net else 0
      case _ => 0
  }

  function MechanismSum(ms: seq<Mechanism>, remaining: int, ratio: real, f: Field): int {
    if ms == [] then 0
    else
      var m := ms[|ms| - 1];
      MechanismSum(ms[..|ms| - 1], remaining, ratio, f) + MechanismAmount(m, ReadMechanism(m, remaining, ratio), f)
  }

  predicate LayerObserved(ms: seq<Mechanism>, layer: LayerIndex) {
    exists m :: m in ms && Counted(m) && MechanismLayer(m) == Some(layer)
  }

  function Is(b: bool): int {
    if b then 1 else 0
  }

  function Occurrences(signals: seq<string>, k: string): int {
    if signals == [] then 0
    else Occurrences(signals[..|signals| - 1], k) + Is(signals[|signals| - 1] == k)
  }

  function DecisionTally(d: Decision): Tally {
    Tally(1, Is(d.action == ActionApplied), Is(d.action == ActionFullPass), Is(d.action == ActionFailedOpen),
          Is(d.action == ActionSkipped), d.net, d.footprintScore)
  }

  // How often the decision names class k; empty names are not counted.
  function DecisionClass(d: Decision, g: Grouping, k: string): int {
    if k == "" then 0
    else
      match g
      case ByContentClass => Is(d.contentClass == k)
      case BySafetyClass => Is(d.safetyClass == k)
      case BySignal => Occurrences(d.signals, k)
      case ByCacheImpact => Is(d.cacheImpact == k)
      case ByFootprint => Is(d.footprintBucket == k)
  }

  function DecisionAmount(d: Decision, e: EvidenceField): int {
    match e
    case InTally(t) => TallyAmount(DecisionTally(d), t)
    case InClass(g, k) => DecisionClass(d, g, k)
  }

  function DecisionSum(ds: seq<Decision>, e: EvidenceField): int {
    if ds == [] then 0 else DecisionSum(ds[..|ds| - 1], e) + DecisionAmount(ds[|ds| - 1], e)
  }

  // Counted whether or not any mechanism was recorded.
  function BaseAmount(r: Record, f: Field): int {
    match f
    case Requests => 1
    case ProviderInput => r.providerInput
    case Original => r.original
    case Final => r.final
    case LocalSaved => r.saved
    case NetSaved => r.saved
    case Output => Max(r.providerOutput, r.output)
    case CacheRead => Read(r)
    case CacheCreate => r.cacheCreate
    case CacheNet => Read(r) - r.cacheCreate
    case CacheHitRequests => Is(Read(r) > 0)
    case OutputReduce => ReduceNet(r)
    case ToolPrune => r.toolPruneSaved
    case InEvidence(e) => DecisionSum(r.decisions, e)
    case _ => 0
  }

  // Layers that no mechanism accounts for fall back to the token counts.
  function LayerFallback(r: Record, layer: LayerIndex): int {
    if LayerObserved(r.mechanisms, layer) then 0
    else
      match layer
      case Layer0 => PositiveDelta(r.original, r.afterLayer0)
      case Layer1 => PositiveDelta(r.afterLayer0, r.afterLayer1)
      case Layer2 => Layer2Fallback(r)
      case Layer3 => 0
  }

  function FallbackAmount(r: Record, f: Field): int {
    if f.InLayer? then LayerFallback(r, f.layer) else 0
  }

  function RecordAmount(r: Record, remaining: int, ratio: real, f: Field): int {
    BaseAmount(r, f) + MechanismSum(r.mechanisms, remaining, ratio, f) + FallbackAmount(r, f)
  }

  // ---- the accumulating code ----

  method AddFootprint(score: int, buckets: Counts, m: Mechanism, x: Reading)
    returns (score': int, buckets': Counts)
    requires Counted(m) && TrimSpace(x.bucket) == x.bucket
    ensures score' == score + MechanismAmount(m, x, FootprintScore)
    ensures forall name :: Get(buckets', name) == Get(buckets, name) + MechanismAmount(m, x, Bucket(name))
    ensures GoodBuckets(buckets) ==> GoodBuckets(buckets')
  {
    if m.footprintScore <= 0 && x.bucket == "" {
      return score, buckets;
    }
    score' := score + m.footprintScore;
    buckets' := AddBucketCount(buckets, x.bucket, 1);
  }

  function AddLayerNet(v: Layers, layer: Option<LayerIndex>, net: int): (r: Layers)
    ensures forall l :: LayerAmount(r, l) == LayerAmount(v, l) + if layer == Some(l) then net else 0
  {
    match layer
    case Some(Layer0) => v.(layer0 := v.layer0 + net)
    case Some(Layer1) => v.(layer1 := v.layer1 + net)
    case Some(Layer2) => v.(layer2 := v.layer2 + net)
    case Some(Layer3) => v.(layer3 := v.layer3 + net)
    case None => v
  }

  method AddMechanism(s: Sums, m: Mechanism, x: Reading) returns (r: Sums)
    requires Counted(m) && TrimSpace(x.bucket) == x.bucket
    ensures forall f :: Amount(r, f) == Amount(s, f) + MechanismAmount(m, x, f)
    ensures Good(s) ==> Good(r)
  {
    var score, buckets := AddFootprint(s.footprintScore, s.footprintBuckets, m, x);
    r := s.(
      added := s.added + m.added,
      footprintScore := score,
      footprintBuckets := buckets,
      compounded := s.compounded + (if x.estimate > 0 then x.estimate else 0),
      layers := AddLayerNet(s.layers, x.layer, m.net));
  }

  method AddMechanisms(s: Sums, ms: seq<Mechanism>, remaining: int, ratio: real)
    returns (r: Sums, observed: set<LayerIndex>)
    ensures forall f :: Amount(r, f) == Amount(s, f) + MechanismSum(ms, remaining, ratio, f)
    ensures forall layer :: layer in observed <==> LayerObserved(ms, layer)
    ensures Good(s) ==> Good(r)
  {
    r, observed := s, {};
    for i := 0 to |ms|
      invariant forall f :: Amount(r, f) == Amount(s, f) + MechanismSum(ms[..i], remaining, ratio, f)
      invariant forall layer :: layer in observed <==> LayerObserved(ms[..i], layer)
      invariant Good(s) ==> Good(r)
    {
      assert ms[..i + 1] == ms[..i] + [ms[i]] && ms[..i + 1][..i] == ms[..i];
      if Counted(ms[i]) {
        TrimTwice(ms[i].footprintBucket);
        var x := ReadMechanism(ms[i], remaining, ratio);
        r := AddMechanism(r, ms[i], x);
        if x.layer.Some? {
          observed := observed + {x.layer.value};
        }
      }
    }
    assert ms[..|ms|] == ms;
  }

  method Bump(c: Counts, key: string) returns (r: Counts)
    ensures forall k :: Get(r, k) == Get(c, k) + if k == "" then 0 else Is(key == k)
    ensures GoodCounts(c) ==> GoodCounts(r)
  {
    r := if key == "" then c else c[key := Get(c, key) + 1];
  }

  method CountSignals(c: Counts, signals: seq<string>) returns (r: Counts)
    ensures forall k :: Get(r, k) == Get(c, k) + if k == "" then 0 else Occurrences(signals, k)
    ensures GoodCounts(c) ==> GoodCounts(r)
  {
    r := c;
    for i := 0 to |signals|
      invariant forall k :: Get(r, k) == Get(c, k) + if k == "" then 0 else Occurrences(signals[..i], k)
      invariant GoodCounts(c) ==> GoodCounts(r)
    {
      assert signals[..i + 1][..i] == signals[..i];
      r := Bump(r, signals[i]);
    }
    assert signals[..|signals|] == signals;
  }

  method AddClasses(v: Classes, d: Decision) returns (r: Classes)
    ensures forall g, k :: Get(Group(r, g), k) == Get(Group(v, g), k) + DecisionClass(d, g, k)
    ensures GoodClasses(v) ==> GoodClasses(r)
  {
    var content := Bump(v.byContentClass, d.contentClass);
    var safety := Bump(v.bySafetyClass, d.safetyClass);
    var signals := CountSignals(v.bySignal, d.signals);
    var impact := Bump(v.byCacheImpact, d.cacheImpact);
    var footprint := Bump(v.byFootprint, d.footprintBucket);
    r := Classes(content, safety, signals, impact, footprint);
    GroupsAreGood(v);
    GroupsAreGood(r);
  }

  method AddEvidence(v: Evidence, ds: seq<Decision>) returns (r: Evidence)
    ensures forall e :: EvidenceAmount(r, e) == EvidenceAmount(v, e) + DecisionSum(ds, e)
    ensures GoodClasses(v.classes) ==> GoodClasses(r.classes)
  {
    r := v;
    for i := 0 to |ds|
      invariant forall e :: EvidenceAmount(r, e) == EvidenceAmount(v, e) + DecisionSum(ds[..i], e)
      invariant GoodClasses(v.classes) ==> GoodClasses(r.classes)
    {
      assert ds[..i + 1][..i] == ds[..i];
      var classes := AddClasses(r.classes, ds[i]);
      r := Evidence(AddTally(r.tally, DecisionTally(ds[i])), classes);
    }
    assert ds[..|ds|] == ds;
  }

  // A session row starts its evidence only when there is some.
  method AddEvidenceToRow(v: Option<Evidence>, ds: seq<Decision>) returns (r: Option<Evidence>)
    ensures forall e :: AmountOf(r, e) == AmountOf(v, e) + DecisionSum(ds, e)
    ensures GoodOption(v) ==> GoodOption(r)
  {
    if ds == [] {
      return v;
    }
    var next := AddEvidence(if v.None? then NO_EVIDENCE else v.value, ds);
    r := Some(next);
  }

  method AddBase(s: Sums, r: Record) returns (next: Sums)
    ensures forall f :: Amount(next, f) == Amount(s, f) + BaseAmount(r, f)
    ensures Good(s) ==> Good(next)
  {
    var read := Read(r);
    var evidence := AddEvidenceToRow(s.evidence, r.decisions);
    next := s.(
      requests := s.requests + 1,
      providerInput := s.providerInput + r.providerInput,
      original := s.original + r.original,
      final := s.final + r.final,
      localSaved := s.localSaved + r.saved,
      netSaved := s.netSaved + r.saved,
      output := s.output + Max(r.providerOutput, r.output),
      cacheRead := s.cacheRead + read,
      cacheCreate := s.cacheCreate + r.cacheCreate,
      cacheNet := s.cacheNet + (read - r.cacheCreate),
      cacheHitRequests := s.cacheHitRequests + Is(read > 0),
      outputReduce := s.outputReduce + ReduceNet(r),
      toolPrune := s.toolPrune + r.toolPruneSaved,
      evidence := evidence);
  }

  method AddLayerFallback(v: Layers, r: Record, seen: set<LayerIndex>) returns (next: Layers)
    requires forall layer :: layer in seen <==> LayerObserved(r.mechanisms, layer)
    ensures forall layer :: LayerAmount(next, layer) == LayerAmount(v, layer) + LayerFallback(r, layer)
  {
    hide LayerObserved, PositiveDelta, Layer2Fallback;
    next := v;
    if Layer0 !in seen {
      next := next.(layer0 := next.layer0 + PositiveDelta(r.original, r.afterLayer0));
    }
    if Layer1 !in seen {
      next := next.(layer1 := next.layer1 + PositiveDelta(r.afterLayer0, r.afterLayer1));
    }
    if Layer2 in seen {
      return;
    }
    next := next.(layer2 := next.layer2 + Layer2Fallback(r));
  }

  // One record adds exactly its RecordAmount to every field of the row.
  method AddRecord(s: Sums, r: Record, remaining: int, ratio: real) returns (next: Sums)
    ensures forall f :: Amount(next, f) == Amount(s, f) + RecordAmount(r, remaining, ratio, f)
    ensures Good(s) ==> Good(next)
  {
    var base := AddBase(s, r);
    var own, observed := AddMechanisms(base, r.mechanisms, remaining, ratio);
    var layers := AddLayerFallback(own.layers, r, observed);
    next := own.(layers := layers);
  }
}
