// The additive part of a savings row. Session rows, route rows and the grand
// totals of cmd/slimference/savings_cmd.go repeat the same counters; they share
// this record here, and `Field` names each counter, bucket and evidence count,
// so that "every additive field" is one quantifier.
module SavingsSums {
  import opened Strs

  // A nil Go map and an empty one read alike.
  type Counts = map<string, int>

  function Get(c: Counts, k: string): int {
    if k in c then c[k] else 0
  }

  datatype Tally = Tally(
    decisions: int, applied: int, fullPass: int, failedOpen: int, skipped: int, netTokens: int, footprintScore: int)

  datatype Classes = Classes(
    byContentClass: Counts, bySafetyClass: Counts, bySignal: Counts, byCacheImpact: Counts, byFootprint: Counts)

  datatype Evidence = Evidence(tally: Tally, classes: Classes)

  const NO_EVIDENCE := Evidence(Tally(0, 0, 0, 0, 0, 0, 0), Classes(map[], map[], map[], map[], map[]))

  datatype Layers = Layers(layer0: int, layer1: int, layer2: int, layer3: int)

  datatype Sums = Sums(
    requests: int, providerInput: int, original: int, final: int, added: int, localSaved: int, netSaved: int,
    negativeEvents: int, negativeEventTokens: int,
    layers: Layers, outputReduce: int, toolPrune: int,
    footprintScore: int, footprintBuckets: Counts, compounded: int, output: int,
    cacheRead: int, cacheCreate: int, cacheNet: int, cacheHitRequests: int,
    evidence: Option<Evidence>)

  const ZERO := Sums(0, 0, 0, 0, 0, 0, 0, 0, 0, Layers(0, 0, 0, 0), 0, 0, 0, map[], 0, 0, 0, 0, 0, 0, None)

  datatype TallyField = Decisions | Applied | FullPass | FailedOpen | Skipped | EvidenceNet | EvidenceScore

  datatype Grouping = ByContentClass | BySafetyClass | BySignal | ByCacheImpact | ByFootprint

  datatype EvidenceField = InTally(t: TallyField) | InClass(g: Grouping, k: string)

  datatype LayerIndex = Layer0 | Layer1 | Layer2 | Layer3

  datatype Field =
    | Requests | ProviderInput | Original | Final | Added | LocalSaved | NetSaved
    | NegativeEvents | NegativeEventTokens
    | InLayer(layer: LayerIndex) | OutputReduce | ToolPrune
    | FootprintScore | Bucket(name: string) | Compounded | Output
    | CacheRead | CacheCreate | CacheNet | CacheHitRequests
    | InEvidence(e: EvidenceField)

  function LayerAmount(v: Layers, layer: LayerIndex): int {
    match layer
    case Layer0 => v.layer0
    case Layer1 => v.layer1
    case Layer2 => v.layer2
    case Layer3 => v.layer3
  }

  function AddLayers(a: Layers, b: Layers): Layers {
    Layers(a.layer0 + b.layer0, a.layer1 + b.layer1, a.layer2 + b.layer2, a.layer3 + b.layer3)
  }

  function TallyAmount(v: Tally, t: TallyField): int {
    match t
    case Decisions => v.decisions
    case Applied => v.applied
    case FullPass => v.fullPass
    case FailedOpen => v.failedOpen
    case Skipped => v.skipped
    case EvidenceNet => v.netTokens
    case EvidenceScore => v.footprintScore
  }

  function Group(v: Classes, g: Grouping): Counts {
    match g
    case ByContentClass => v.byContentClass
    case BySafetyClass => v.bySafetyClass
    case BySignal => v.bySignal
    case ByCacheImpact => v.byCacheImpact
    case ByFootprint => v.byFootprint
  }

  function EvidenceAmount(v: Evidence, e: EvidenceField): int {
    match e
    case InTally(t) => TallyAmount(v.tally, t)
    case InClass(g, k) => Get(Group(v.classes, g), k)
  }

  function AmountOf(v: Option<Evidence>, e: EvidenceField): int {
    if v.None? then 0 else EvidenceAmount(v.value, e)
  }

  function Amount(s: Sums, f: Field): int {
    match f
    case Requests => s.requests
    case ProviderInput => s.providerInput
    case Original => s.original
    case Final => s.final
    case Added => s.added
    case LocalSaved => s.localSaved
    case NetSaved => s.netSaved
    case NegativeEvents => s.negativeEvents
    case NegativeEventTokens => s.negativeEventTokens
    case InLayer(layer) => LayerAmount(s.layers, layer)
    case OutputReduce => s.outputReduce
    case ToolPrune => s.toolPrune
    case FootprintScore => s.footprintScore
    case Bucket(name) => Get(s.footprintBuckets, name)
    case Compounded => s.compounded
    case Output => s.output
    case CacheRead => s.cacheRead
    case CacheCreate => s.cacheCreate
    case CacheNet => s.cacheNet
    case CacheHitRequests => s.cacheHitRequests
    case InEvidence(e) => AmountOf(s.evidence, e)
  }

  // Footprint buckets are stored under trimmed, non-empty names with positive counts.
  predicate GoodBuckets(c: Counts) {
    forall k :: k in c ==> k != "" && TrimSpace(k) == k && c[k] > 0
  }

  predicate GoodCounts(c: Counts) {
    forall k :: k in c ==> k != "" && c[k] > 0
  }

  predicate GoodClasses(v: Classes) {
    forall g :: GoodCounts(Group(v, g))
  }

  // What every row built by the accumulator satisfies.
  predicate Good(s: Sums) {
    GoodBuckets(s.footprintBuckets) && GoodOption(s.evidence)
  }

  // ---- merging ----

  method AddBucketCount(c: Counts, name: string, n: int) returns (r: Counts)
    ensures TrimSpace(name) == name && name != "" && n > 0 ==> r == c[name := Get(c, name) + n]
    ensures TrimSpace(name) == "" || n <= 0 ==> r == c
    ensures GoodBuckets(c) ==> GoodBuckets(r)
  {
    var bucket := TrimSpace(name);
    TrimTwice(name);
    r := if bucket == "" || n <= 0 then c else c[bucket := Get(c, bucket) + n];
  }

  // Go ranges over the source map in no fixed order.
  method MergeBucketCounts(dst: Counts, src: Counts) returns (r: Counts)
    ensures GoodBuckets(src) ==> forall k :: Get(r, k) == Get(dst, k) + Get(src, k)
    ensures GoodBuckets(src) && GoodBuckets(dst) ==> GoodBuckets(r)
  {
    r := dst;
    var todo := src.Keys;
    while todo != {}
      invariant todo <= src.Keys
      invariant GoodBuckets(src) ==>
          forall k :: Get(r, k) == Get(dst, k) + if k in todo then 0 else Get(src, k)
      invariant GoodBuckets(src) && GoodBuckets(dst) ==> GoodBuckets(r)
      decreases |todo|
    {
      var bucket :| bucket in todo;
      r := AddBucketCount(r, bucket, src[bucket]);
      todo := todo - {bucket};
    }
  }

  method MergeCountMap(dst: Counts, src: Counts) returns (r: Counts)
    ensures GoodCounts(src) ==> forall k :: Get(r, k) == Get(dst, k) + Get(src, k)
    ensures GoodCounts(src) && GoodCounts(dst) ==> GoodCounts(r)
  {
    r := dst;
    var todo := src.Keys;
    while todo != {}
      invariant todo <= src.Keys
      invariant GoodCounts(src) ==>
          forall k :: Get(r, k) == Get(dst, k) + if k in todo then 0 else Get(src, k)
      invariant GoodCounts(src) && GoodCounts(dst) ==> GoodCounts(r)
      decreases |todo|
    {
      var key :| key in todo;
      if key != "" && src[key] != 0 {
        r := r[key := Get(r, key) + src[key]];
      }
      todo := todo - {key};
    }
  }

  predicate IsEvidenceEmpty(v: Evidence) {
    v == NO_EVIDENCE
  }

  function AddTally(a: Tally, b: Tally): Tally {
    Tally(a.decisions + b.decisions, a.applied + b.applied, a.fullPass + b.fullPass, a.failedOpen + b.failedOpen,
          a.skipped + b.skipped, a.netTokens + b.netTokens, a.footprintScore + b.footprintScore)
  }

  method MergeClasses(dst: Classes, src: Classes) returns (r: Classes)
    ensures GoodClasses(src) ==>
        forall g, k :: Get(Group(r, g), k) == Get(Group(dst, g), k) + Get(Group(src, g), k)
    ensures GoodClasses(src) && GoodClasses(dst) ==> GoodClasses(r)
  {
    hide Get, GoodCounts;
    var content := MergeCountMap(dst.byContentClass, src.byContentClass);
    var safety := MergeCountMap(dst.bySafetyClass, src.bySafetyClass);
    var signal := MergeCountMap(dst.bySignal, src.bySignal);
    var impact := MergeCountMap(dst.byCacheImpact, src.byCacheImpact);
    var footprint := MergeCountMap(dst.byFootprint, src.byFootprint);
    r := Classes(content, safety, signal, impact, footprint);
    GroupsAreGood(src);
    GroupsAreGood(dst);
    GroupsAreGood(r);
  }

  lemma GroupsAreGood(v: Classes)
    ensures GoodClasses(v) <==>
      GoodCounts(v.byContentClass) && GoodCounts(v.bySafetyClass) && GoodCounts(v.bySignal)
      && GoodCounts(v.byCacheImpact) && GoodCounts(v.byFootprint)
  {
    assert v.byContentClass == Group(v, ByContentClass) && v.bySafetyClass == Group(v, BySafetyClass)
      && v.bySignal == Group(v, BySignal) && v.byCacheImpact == Group(v, ByCacheImpact)
      && v.byFootprint == Group(v, ByFootprint);
  }

  predicate GoodOption(v: Option<Evidence>) {
    v.Some? ==> GoodClasses(v.value.classes)
  }

  method MergeEvidence(dst: Option<Evidence>, src: Option<Evidence>) returns (r: Option<Evidence>)
    ensures GoodOption(src) ==> forall e :: AmountOf(r, e) == AmountOf(dst, e) + AmountOf(src, e)
    ensures GoodOption(dst) && GoodOption(src) ==> GoodOption(r)
  {
    if src.None? || IsEvidenceEmpty(src.value) {
      return dst;
    }
    var d := if dst.None? then NO_EVIDENCE else dst.value;
    var classes := MergeClasses(d.classes, src.value.classes);
    r := Some(Evidence(AddTally(d.tally, src.value.tally), classes));
  }

  // Merging adds every field, whatever order the maps are ranged in.
  method MergeSums(dst: Sums, src: Sums) returns (r: Sums)
    ensures Good(src) ==> forall f :: Amount(r, f) == Amount(dst, f) + Amount(src, f)
    ensures Good(dst) && Good(src) ==> Good(r)
  {
    var buckets := MergeBucketCounts(dst.footprintBuckets, src.footprintBuckets);
    var evidence := MergeEvidence(dst.evidence, src.evidence);
    r := Sums(
      dst.requests + src.requests, dst.providerInput + src.providerInput, dst.original + src.original,
      dst.final + src.final, dst.added + src.added, dst.localSaved + src.localSaved,
      dst.netSaved + src.netSaved, dst.negativeEvents + src.negativeEvents,
      dst.negativeEventTokens + src.negativeEventTokens,
      AddLayers(dst.layers, src.layers), dst.outputReduce + src.outputReduce,
      dst.toolPrune + src.toolPrune, dst.footprintScore + src.footprintScore, buckets, dst.compounded + src.compounded,
      dst.output + src.output, dst.cacheRead + src.cacheRead, dst.cacheCreate + src.cacheCreate,
      dst.cacheNet + src.cacheNet, dst.cacheHitRequests + src.cacheHitRequests, evidence);
  }
}
