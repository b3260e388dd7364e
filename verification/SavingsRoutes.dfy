// Finished session rows and the route rows summed from them
// (savingsBuildRouteSummaries in cmd/slimference/savings_cmd.go).
module SavingsRoutes {
  import opened Strs
  import opened MapSums
  import opened SavingsSums
  import opened SavingsRecords
  import opened SavingsBilling
  import opened SavingsRows

  datatype Session = Session(row: SessionRow, card: Scorecard)

  function CardOf(s: Sums, ratio: real): Scorecard {
    BuildScorecard(s.providerInput, s.final, s.localSaved, s.cacheRead, s.cacheCreate, s.negativeEventTokens, ratio)
    .(compounded := s.compounded)
  }

  datatype RouteRow = RouteRow(
    routeKey: string, clientFamily: string, routeMode: string, sessions: int, sums: Sums,
    effective: int, counterfactual: int, uncached: int)

  type Routes = map<string, RouteRow>

  // What a route row adds up over its sessions.
  datatype Share = Sum(f: Field) | Sessions | Effective | Counterfactual | Uncached

  function ShareOf(s: Session, x: Share): int {
    match x
    case Sum(f) => Amount(s.row.sums, f)
    case Sessions => 1
    case Effective => s.card.effective
    case Counterfactual => s.card.counterfactual
    case Uncached => s.card.uncached
  }

  function RouteShare(r: RouteRow, x: Share): int {
    match x
    case Sum(f) => Amount(r.sums, f)
    case Sessions => r.sessions
    case Effective => r.effective
    case Counterfactual => r.counterfactual
    case Uncached => r.uncached
  }

  function OfRoute(x: Share): RouteRow -> int {
    (r: RouteRow) => RouteShare(r, x)
  }

  function Shares(sessions: seq<Session>, x: Share): seq<int> {
    seq(|sessions|, i requires 0 <= i < |sessions| => ShareOf(sessions[i], x))
  }

  function RouteFamily(row: SessionRow): string {
    var family := TrimSpace(row.clientFamily);
    if family == "" then "unknown_client" else family
  }

  function RouteModeOf(row: SessionRow): string {
    var mode := TrimSpace(row.routeMode);
    if mode == "" then "unknown_route" else mode
  }

  function RouteKey(row: SessionRow): string {
    RouteFamily(row) + "/" + RouteModeOf(row)
  }

  lemma RouteKeyMeans(row: SessionRow)
    ensures RouteKey(row) == RouteFamily(row) + "/" + RouteModeOf(row)
    ensures Blank(row.clientFamily) ==> RouteFamily(row) == "unknown_client"
    ensures !Blank(row.clientFamily) ==> RouteFamily(row) == TrimSpace(row.clientFamily)
    ensures Blank(row.routeMode) ==> RouteModeOf(row) == "unknown_route"
    ensures !Blank(row.routeMode) ==> RouteModeOf(row) == TrimSpace(row.routeMode)
  {
    TrimsToNothing(row.clientFamily);
    TrimsToNothing(row.routeMode);
  }

  // The scorecard of a session, from what its row sums.
  lemma CardReads(s: Sums, ratio: real, price: real, input: int, cached: int, without: int, cachedWithout: int)
    requires IsPrice(ratio, price) && IsInput(s.providerInput, s.final, input) && IsCached(input, s.cacheRead, cached)
    requires (input + s.localSaved >= 0 ==> without == input + s.localSaved)
      && (input + s.localSaved < 0 ==> without == 0)
    requires IsCached(without, s.cacheRead, cachedWithout)
    ensures var card := CardOf(s, ratio);
      && RoundsUp((input - cached) as real + cached as real * price
                  + (s.cacheCreate + s.negativeEventTokens) as real, card.effective)
      && RoundsUp((without - cachedWithout) as real + cachedWithout as real * price + s.cacheCreate as real,
                  card.counterfactual)
      && card.uncached == without && card.compounded == s.compounded
  {
    hide RoundsUp;
    var b := Bill(s.providerInput, s.final, s.cacheRead, s.cacheCreate, s.negativeEventTokens);
    EffectivePrice(b, ratio, price, input, cached);
    CounterfactualPrice(b, s.localSaved, ratio, price, input, without, cachedWithout);
  }

  function RouteKeys(sessions: seq<Session>): seq<string> {
    seq(|sessions|, i requires 0 <= i < |sessions| => RouteKey(sessions[i].row))
  }

  // Added tokens are not part of a route row; every other share is.
  predicate Routed(x: Share) {
    x != Sum(Added)
  }

  // A route row names its client and its mode, and is filed under both.
  predicate Labelled(r: RouteRow) {
    r.routeKey == r.clientFamily + "/" + r.routeMode
  }

  method AddToRoute(r: RouteRow, s: Session) returns (next: RouteRow)
    requires Good(s.row.sums)
    ensures forall x | Routed(x) :: OfRoute(x)(next) == OfRoute(x)(r) + ShareOf(s, x)
    ensures Good(r.sums) ==> Good(next.sums)
    ensures Labelled(r) ==> Labelled(next) && next.routeKey == r.routeKey
  {
    var sums := MergeSums(r.sums, s.row.sums);
    next := RouteRow(r.routeKey, r.clientFamily, r.routeMode, r.sessions + 1, sums.(added := r.sums.added),
                     r.effective + s.card.effective, r.counterfactual + s.card.counterfactual,
                     r.uncached + s.card.uncached);
  }

  method NewRoute(s: Session) returns (r: RouteRow)
    ensures forall x :: OfRoute(x)(r) == 0
    ensures Good(r.sums) && Labelled(r) && r.routeKey == RouteKey(s.row)
    ensures r.clientFamily == RouteFamily(s.row) && r.routeMode == RouteModeOf(s.row)
  {
    r := RouteRow(RouteKey(s.row), RouteFamily(s.row), RouteModeOf(s.row), 0, ZERO, 0, 0, 0);
  }

  ghost predicate RoutesAt(sessions: seq<Session>, n: nat, routes: Routes)
    requires n <= |sessions|
  {
    KeyedBy(RouteKeys(sessions), n, routes)
    && (forall k :: k in routes ==> Good(routes[k].sums) && Labelled(routes[k]) && routes[k].routeKey == k)
    && (forall x | Routed(x) :: Tallied(RouteKeys(sessions), Shares(sessions, x), n, routes, OfRoute(x)))
  }

  function ShareSoFar(routes: Routes, key: string, x: Share): int {
    if key in routes then OfRoute(x)(routes[key]) else 0
  }

  lemma RoutesStep(sessions: seq<Session>, n: nat, routes: Routes, row: RouteRow)
    requires n < |sessions| && RoutesAt(sessions, n, routes) && Good(row.sums) && Labelled(row)
    requires row.routeKey == RouteKeys(sessions)[n]
    requires forall x | Routed(x) ::
      OfRoute(x)(row) == ShareSoFar(routes, RouteKeys(sessions)[n], x) + ShareOf(sessions[n], x)
    ensures RoutesAt(sessions, n + 1, routes[RouteKeys(sessions)[n] := row])
  {
    hide Amount, RouteKey;
    var keys := RouteKeys(sessions);
    KeyStep(keys, n, routes, row);
    forall x | Routed(x)
      ensures Tallied(keys, Shares(sessions, x), n + 1, routes[keys[n] := row], OfRoute(x))
    {
      assert Shares(sessions, x)[n] == ShareOf(sessions[n], x);
      TallyStep(keys, Shares(sessions, x), n, routes, row, OfRoute(x));
    }
  }

  // Every route row sums its sessions, and the routes together sum all sessions.
  method BuildRoutes(sessions: seq<Session>) returns (routes: Routes)
    requires forall s :: s in sessions ==> Good(s.row.sums)
    ensures RoutesAt(sessions, |sessions|, routes)
  {
    hide RouteKey, Good, ShareOf, Labelled, OfRoute, RouteShare, Shares, KeyedBy, Tallied, RouteFamily, RouteModeOf;
    routes := map[];
    NoRoutes(sessions);
    for i := 0 to |sessions|
      invariant RoutesAt(sessions, i, routes)
    {
      var key := RouteKey(sessions[i].row);
      assert key == RouteKeys(sessions)[i];
      var row;
      if key in routes {
        row := routes[key];
      } else {
        row := NewRoute(sessions[i]);
      }
      var next := AddToRoute(row, sessions[i]);
      RoutesStep(sessions, i, routes, next);
      routes := routes[key := next];
    }
  }

  lemma NoRoutes(sessions: seq<Session>)
    ensures RoutesAt(sessions, 0, map[])
  {
    TallyStart(RouteKeys(sessions), Shares(sessions, Sessions), OfRoute(Sessions));
    forall x | Routed(x)
      ensures Tallied(RouteKeys(sessions), Shares(sessions, x), 0, map[], OfRoute(x))
    {
      TallyStart(RouteKeys(sessions), Shares(sessions, x), OfRoute(x));
    }
  }
}
