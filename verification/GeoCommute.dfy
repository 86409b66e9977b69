// services/geo_commute/service.py and compliance.py: a route cache in front of a
// router whose transit graph is rebuilt when another feed becomes active.
//
// Routing is a parameter: a function of the whole request and of what the router
// routes by, its graph version or its road profile and tiles. So are the normalization
// of identifiers and the text of a time bucket. Time is counted in completed graph
// builds, which is all that the order of built_at and created_at is needed for.
module GeoCommute {
  import opened Prelude
  import opened CacheKeys

  datatype Route = Route(duration: real, distance: real)

  datatype CommuteError = NoFeed | BuildFailed | FingerprintMismatch | RoutingFailed(reason: string)

  // What a graph builder answers for a feed: a version of its own, none, or an exception.
  datatype Built = Version(name: string) | Unnamed | Failed

  // It may answer from the feeds of all its earlier calls.
  type Builder = (seq<string>, string) -> Built

  datatype Place = Place(latitude: real, longitude: real)

  type Time = int

  datatype Request = Request(origin: Place, destination: Place, cell: string, anchor: string, mode: Mode,
                             departAt: Time, feed: Option<string>)

  // What a router routes by.
  datatype Basis = OnGraph(version: Option<string>) | OnRoads(profile: string, tiles: string)

  type Routing = (Request, Basis) -> Result<Route, string>

  datatype Keying = Keying(normalize: string -> string, bucket: Time -> string)

  function KeyOf(keying: Keying, q: Request): CacheKey {
    CacheKey(keying.normalize(q.cell), keying.normalize(q.anchor), q.mode, keying.bucket(q.departAt))
  }

  function TextOf(keying: Keying, q: Request): string { ToKey(KeyOf(keying, q)) }

  datatype Graph = Graph(active: Option<string>, version: Option<string>, versionOf: Option<string>, counter: nat,
                         builtAt: nat, calls: seq<string>)

  datatype Router = Router(graphs: Option<Graph>, otpVersion: Option<string>, profile: string, tiles: string)

  // The basis is what the source records in the route's metadata.
  datatype Entry = Entry(route: Route, token: string, createdAt: nat, basis: Basis)

  datatype Service = Service(router: Router, entries: map<string, Entry>)

  datatype Reply = Reply(key: string, hit: bool, route: Route)

  datatype Env = Env(build: Builder, route: Routing, keying: Keying)

  const NEW_GRAPH := Graph(None, None, None, 0, 0, [])

  // Decimal digits of a number, and back.
  function Dec(n: nat): string {
    if n < 10 then [Digit(n)] else Dec(n / 10) + [Digit(n % 10)]
  }

  function Digit(d: nat): char
    requires d < 10
  {
    '0' + d as char
  }

  function Value(s: string): int {
    if s == "" then 0 else Value(s[..|s| - 1]) * 10 + (s[|s| - 1] as int - '0' as int)
  }

  lemma {:induction false} ValueUndoesDec(n: nat)
    ensures Value(Dec(n)) == n
  {
    if n >= 10 {
      ValueUndoesDec(n / 10);
      assert Dec(n)[..|Dec(n)| - 1] == Dec(n / 10);
    } else {
      assert Value(Dec(n)[..0]) == 0;
    }
  }

  function GraphName(n: nat): string { "otp-graph-" + Dec(n) }

  function TransitToken(version: Option<string>): string {
    "otp:" + if version == None || version.value == "" then "unknown" else version.value
  }

  function BasisOf(r: Router, mode: Mode): Basis {
    if mode == Transit then OnGraph(r.otpVersion) else OnRoads(r.profile, r.tiles)
  }

  function TokenOf(x: Basis): string {
    match x
    case OnGraph(version) => TransitToken(version)
    case OnRoads(profile, tiles) => "valhalla:" + profile + ":" + tiles
  }

  function Token(r: Router, mode: Mode): string { TokenOf(BasisOf(r, mode)) }

  lemma TransitTokensTellBuildsApart(m: nat, n: nat)
    requires TransitToken(Some(GraphName(m))) == TransitToken(Some(GraphName(n)))
    ensures m == n
  {
    var p := "otp:otp-graph-";
    assert TransitToken(Some(GraphName(m))) == p + Dec(m);
    assert TransitToken(Some(GraphName(n))) == p + Dec(n);
    assert (p + Dec(m))[|p|..] == Dec(m) && (p + Dec(n))[|p|..] == Dec(n);
    ValueUndoesDec(m);
    ValueUndoesDec(n);
  }

  // The graph after a build, and the error if it failed. A failed build leaves only its call behind.
  function Rebuild(build: Builder, g: Graph, feed: string): (Graph, Option<CommuteError>) {
    var called := g.(calls := g.calls + [feed]);
    match build(g.calls, feed)
    case Failed => (called, Some(BuildFailed))
    case Version(name) => (called.(version := Some(name), versionOf := Some(feed), builtAt := g.builtAt + 1), None)
    case Unnamed => (called.(version := Some(GraphName(g.counter + 1)), versionOf := Some(feed),
                             counter := g.counter + 1, builtAt := g.builtAt + 1), None)
  }

  function Ensured(build: Builder, g: Graph): (Graph, Option<CommuteError>) {
    if g.active == None || g.active.value == "" then (g, Some(NoFeed))
    else if g.version == None || g.versionOf != g.active then Rebuild(build, g, g.active.value)
    else (g, None)
  }

  function Prepare(build: Builder, r: Router, mode: Mode): (Router, Option<CommuteError>) {
    if mode != Transit || r.graphs == None then (r, None)
    else
      var (g, error) := Ensured(build, r.graphs.value);
      (r.(graphs := Some(g), otpVersion := if error == None then g.version else r.otpVersion), error)
  }

  function BuiltAt(r: Router): nat { if r.graphs == None then 0 else r.graphs.value.builtAt }

  // The feed behind a prepared router, known for managed transit only.
  function FeedOf(r: Router, mode: Mode): Option<string> {
    if mode == Transit && r.graphs.Some? then r.graphs.value.active else None
  }

  predicate Mismatch(r: Router, q: Request) {
    var feed := FeedOf(r, q.mode);
    q.feed.Some? && q.feed.value != "" && feed.Some? && feed.value != "" && q.feed != feed
  }

  predicate Hit(s: Service, key: string, token: string) {
    key in s.entries && s.entries[key].token == token
  }

  // The service with the cache.
  function Serve(env: Env, s: Service, q: Request): (Service, Result<Reply, CommuteError>) {
    var (r, error) := Prepare(env.build, s.router, q.mode);
    var key, token := TextOf(env.keying, q), Token(r, q.mode);
    if error.Some? then (s.(router := r), Err(error.value))
    else if Mismatch(r, q) then (s.(router := r), Err(FingerprintMismatch))
    else if Hit(s, key, token) then (s.(router := r), Ok(Reply(key, true, s.entries[key].route)))
    else match env.route(q, BasisOf(r, q.mode))
      case Err(e) => (s.(router := r), Err(RoutingFailed(e)))
      case Ok(route) =>
        (Service(r, s.entries[key := Entry(route, token, BuiltAt(r), BasisOf(r, q.mode))]),
         Ok(Reply(key, false, route)))
  }

  // The same request answered by the router alone.
  function Direct(env: Env, r: Router, q: Request): (Router, Result<Route, CommuteError>) {
    var (ready, error) := Prepare(env.build, r, q.mode);
    if error.Some? then (ready, Err(error.value))
    else if Mismatch(ready, q) then (ready, Err(FingerprintMismatch))
    else match env.route(q, BasisOf(ready, q.mode))
      case Err(e) => (ready, Err(RoutingFailed(e)))
      case Ok(route) => (ready, Ok(route))
  }

  datatype Step = Ask(request: Request) | RegisterFeed(feed: string) | SetProfile(profile: string)

  function Reconfigured(r: Router, step: Step): Router {
    match step
    case Ask(_) => r
    case RegisterFeed(feed) =>
      if r.graphs == None then r else r.(graphs := Some(r.graphs.value.(active := Some(feed))))
    case SetProfile(profile) => r.(profile := profile)
  }

  function RouteOf(reply: Result<Reply, CommuteError>): Result<Route, CommuteError> {
    match reply case Ok(value) => Ok(value.route) case Err(e) => Err(e)
  }

  function After(env: Env, s: Service, step: Step): Service {
    if step.Ask? then Serve(env, s, step.request).0 else s.(router := Reconfigured(s.router, step))
  }

  // Every answer of a run, with the cache and without.
  function Answers(env: Env, s: Service, steps: seq<Step>): seq<Result<Route, CommuteError>>
    decreases |steps|
  {
    if steps == [] then []
    else
      (if steps[0].Ask? then [RouteOf(Serve(env, s, steps[0].request).1)] else []) +
      Answers(env, After(env, s, steps[0]), steps[1..])
  }

  function DirectAnswers(env: Env, r: Router, steps: seq<Step>): seq<Result<Route, CommuteError>>
    decreases |steps|
  {
    if steps == [] then []
    else if steps[0].Ask? then
      var (ready, answer) := Direct(env, r, steps[0].request);
      [answer] + DirectAnswers(env, ready, steps[1..])
    else DirectAnswers(env, Reconfigured(r, steps[0]), steps[1..])
  }

  // ---------- The cache refines direct routing ----------

  predicate Within(requests: iset<Request>, steps: seq<Step>) {
    forall i :: 0 <= i < |steps| && steps[i].Ask? ==> steps[i].request in requests
  }

  // Two requests that share a text, and a router, so that one can be answered from the other's entry.
  predicate Shares(keying: Keying, a: Request, b: Request) {
    TextOf(keying, a) == TextOf(keying, b) && (a.mode == Transit <==> b.mode == Transit)
  }

  // Failures are not stored, so only a route is ever given to the other request.
  predicate SameRoute(route: Routing, a: Request, x: Basis, b: Request, y: Basis) {
    route(a, x).Ok? || route(b, y).Ok? ==> route(a, x) == route(b, y)
  }

  // The token says "unknown" for a graph version that is empty.
  predicate Nameless(version: Option<string>) { version.Some? && (version.value == "" || version.value == "unknown") }

  // The bases that the token of one router cannot tell apart.
  predicate Alike(x: Basis, y: Basis) {
    x == y || (x.OnGraph? && y.OnGraph? && Nameless(x.version) && Nameless(y.version))
  }

  predicate Suits(mode: Mode, x: Basis) { mode == Transit <==> x.OnGraph? }

  // Routing answers alike wherever requests share a text and the bases look alike.
  ghost predicate Agrees(route: Routing, keying: Keying, requests: iset<Request>) {
    forall a, b, x, y {:trigger Shares(keying, a, b), Alike(x, y)} ::
      a in requests && b in requests && Shares(keying, a, b) && Suits(a.mode, x) && Alike(x, y) ==>
        SameRoute(route, a, x, b, y)
  }

  // A basis this router has had, or may have: its tiles never change, a managed one has a version whenever it routes,
  // and the version of one that is not managed never changes.
  ghost predicate Had(r: Router, x: Basis) {
    match x
    case OnRoads(_, tiles) => tiles == r.tiles
    case OnGraph(version) => if r.graphs.Some? then version.Some? else version == r.otpVersion
  }

  lemma TokensTell(r: Router, x: Basis, y: Basis)
    requires Had(r, x) && Had(r, y)
    ensures TokenOf(x) == TokenOf(y) <==> Alike(x, y)
  {
    TokenPrefixOf(x);
    TokenPrefixOf(y);
    if TokenOf(x) == TokenOf(y) {
      match x
      case OnRoads(profile, tiles) => RoadTokensTell(profile, y.profile, tiles);
      case OnGraph(version) =>
        if version.Some? { GraphTokensTell(version.value, y.version.value); }
    }
  }

  lemma RoadTokensTell(p: string, q: string, tiles: string)
    requires "valhalla:" + p + ":" + tiles == "valhalla:" + q + ":" + tiles
    ensures p == q
  {
    var n := |"valhalla:"|;
    var s, t := "valhalla:" + p + ":" + tiles, "valhalla:" + q + ":" + tiles;
    assert |p| == |q|;
    assert s[n..n + |p|] == p && t[n..n + |q|] == q;
  }

  lemma GraphTokensTell(v: string, w: string)
    requires TransitToken(Some(v)) == TransitToken(Some(w))
    ensures v == w || (Nameless(Some(v)) && Nameless(Some(w)))
  {
    var n := |"otp:"|;
    assert TransitToken(Some(v))[n..] == if v == "" then "unknown" else v;
    assert TransitToken(Some(w))[n..] == if w == "" then "unknown" else w;
  }

  lemma TokenPrefixOf(x: Basis)
    ensures x.OnGraph? <==> "otp:" <= TokenOf(x)
  {
    if x.OnRoads? { assert TokenOf(x)[0] == 'v'; }
  }

  lemma TokenPrefix(r: Router, mode: Mode)
    ensures mode == Transit <==> "otp:" <= Token(r, mode)
  {
    TokenPrefixOf(BasisOf(r, mode));
  }

  // An entry was stored for one of the requests, on a basis the router has had, and is what routing answers for it
  // there.
  ghost predicate Justified(env: Env, requests: iset<Request>, r: Router, text: string, e: Entry) {
    && Had(r, e.basis) && e.token == TokenOf(e.basis)
    && exists q :: q in requests && TextOf(env.keying, q) == text && Suits(q.mode, e.basis)
                   && env.route(q, e.basis) == Ok(e.route)
  }

  ghost predicate Sound(env: Env, requests: iset<Request>, s: Service) {
    forall text :: text in s.entries ==> Justified(env, requests, s.router, text, s.entries[text])
  }

  // What is found in the cache is what routing would answer.
  lemma HitIsRouted(env: Env, requests: iset<Request>, s: Service, q: Request, r: Router)
    requires Agrees(env.route, env.keying, requests) && Sound(env, requests, s) && q in requests
    requires Hit(s, TextOf(env.keying, q), Token(r, q.mode)) && SameBases(s.router, r) && Had(r, BasisOf(r, q.mode))
    ensures env.route(q, BasisOf(r, q.mode)) == Ok(s.entries[TextOf(env.keying, q)].route)
    ensures Alike(s.entries[TextOf(env.keying, q)].basis, BasisOf(r, q.mode))
  {
    hide TokenOf, Alike;
    var text := TextOf(env.keying, q);
    var e, x := s.entries[text], BasisOf(r, q.mode);
    assert Justified(env, requests, s.router, text, e);
    var q0 :| q0 in requests && TextOf(env.keying, q0) == text && Suits(q0.mode, e.basis)
              && env.route(q0, e.basis) == Ok(e.route);
    TokensTell(r, e.basis, x);
    TokenPrefixOf(e.basis);
    TokenPrefixOf(x);
    assert Shares(env.keying, q0, q);
    assert SameRoute(env.route, q0, e.basis, q, x);
  }

  // Two states of one router between which it keeps every basis it has had.
  ghost predicate SameBases(r: Router, r': Router) { forall x :: Had(r, x) ==> Had(r', x) }

  lemma PrepareKeepsBases(build: Builder, r: Router, mode: Mode)
    ensures var (r', error) := Prepare(build, r, mode);
            SameBases(r, r') && (error == None ==> Had(r', BasisOf(r', mode)))
  {
  }

  lemma CommuteRefinesDirect(env: Env, requests: iset<Request>, s: Service, q: Request)
    requires Agrees(env.route, env.keying, requests) && Sound(env, requests, s) && q in requests
    ensures var (after, reply) := Serve(env, s, q);
            (after.router, RouteOf(reply)) == Direct(env, s.router, q) && Sound(env, requests, after)
  {
    hide Agrees, TextOf, TokenOf, Had, Prepare, BasisOf, Suits;
    var (after, reply) := Serve(env, s, q);
    var (ready, error) := Prepare(env.build, s.router, q.mode);
    var text, token, x := TextOf(env.keying, q), Token(ready, q.mode), BasisOf(ready, q.mode);
    PrepareKeepsBases(env.build, s.router, q.mode);
    BasisSuits(ready, q.mode);
    assert Sound(env, requests, s.(router := ready));
    if error == None && !Mismatch(ready, q) {
      if Hit(s, text, token) {
        HitIsRouted(env, requests, s, q, ready);
      } else if env.route(q, x).Ok? {
        assert Justified(env, requests, ready, text, after.entries[text]);
      }
    }
  }

  lemma BasisSuits(r: Router, mode: Mode)
    ensures Suits(mode, BasisOf(r, mode))
  {
  }

  lemma ReconfiguredKeepsSound(env: Env, requests: iset<Request>, s: Service, step: Step)
    requires Sound(env, requests, s) && !step.Ask?
    ensures Sound(env, requests, After(env, s, step))
  {
    var r := Reconfigured(s.router, step);
    assert SameBases(s.router, r);
    hide Had;
  }

  lemma {:induction false} SoundRuns(env: Env, requests: iset<Request>, s: Service, steps: seq<Step>)
    requires Agrees(env.route, env.keying, requests) && Sound(env, requests, s) && Within(requests, steps)
    ensures Answers(env, s, steps) == DirectAnswers(env, s.router, steps)
    decreases |steps|
  {
    hide Agrees, Serve, Direct, Reconfigured;
    if steps != [] {
      if steps[0].Ask? {
        CommuteRefinesDirect(env, requests, s, steps[0].request);
      } else {
        ReconfiguredKeepsSound(env, requests, s, steps[0]);
      }
      SoundRuns(env, requests, After(env, s, steps[0]), steps[1..]);
    }
  }

  ghost predicate Refines(route: Routing, keying: Keying, requests: iset<Request>) {
    forall build: Builder, r: Router, steps: seq<Step> :: Within(requests, steps) ==>
      Answers(Env(build, route, keying), Service(r, map[]), steps) == DirectAnswers(Env(build, route, keying), r, steps)
  }

  // Whatever the router, the builder, the feeds and the profiles, the cache never changes an answer exactly when
  // routing agrees on requests that share a text and a router.
  lemma CacheRefinesRoutingIff(route: Routing, keying: Keying, requests: iset<Request>)
    ensures Refines(route, keying, requests) <==> Agrees(route, keying, requests)
  {
    hide Shares;
    if Agrees(route, keying, requests) {
      forall build: Builder, r: Router, steps: seq<Step> | Within(requests, steps)
        ensures Answers(Env(build, route, keying), Service(r, map[]), steps)
             == DirectAnswers(Env(build, route, keying), r, steps)
      {
        SoundRuns(Env(build, route, keying), requests, Service(r, map[]), steps);
      }
    } else {
      var a, b, x, y :| a in requests && b in requests && Shares(keying, a, b) && Suits(a.mode, x) && Alike(x, y)
                        && !SameRoute(route, a, x, b, y);
      if route(a, x).Ok? {
        Mislead(route, keying, requests, a, x, b, y);
      } else {
        SharesBack(keying, a, x, b, y);
        Mislead(route, keying, requests, b, y, a, x);
      }
    }
  }

  lemma SharesBack(keying: Keying, a: Request, x: Basis, b: Request, y: Basis)
    requires Shares(keying, a, b) && Suits(a.mode, x) && Alike(x, y)
    ensures Shares(keying, b, a) && Suits(b.mode, y) && Alike(y, x)
  {
  }

  lemma Mislead(route: Routing, keying: Keying, requests: iset<Request>, a: Request, x: Basis, b: Request, y: Basis)
    requires a in requests && b in requests && Shares(keying, a, b) && Suits(a.mode, x) && Alike(x, y)
    requires route(a, x).Ok? && route(a, x) != route(b, y)
    ensures !Refines(route, keying, requests)
  {
    if x == y {
      SharedTextMisleads(route, keying, requests, a, b, x);
    } else {
      SharedTokenMisleads(route, keying, requests, a, x.version.value, b, y.version.value);
    }
  }

  // One request answered with the route of the other.
  lemma SharedTextMisleads(route: Routing, keying: Keying, requests: iset<Request>, a: Request, b: Request, x: Basis)
    requires a in requests && b in requests && Shares(keying, a, b) && Suits(a.mode, x)
    requires route(a, x).Ok? && route(a, x) != route(b, x)
    ensures !Refines(route, keying, requests)
  {
    var build: Builder := (_, _) => Unnamed;
    var env := Env(build, route, keying);
    var bare := if x.OnGraph? then Router(None, x.version, "", "") else Router(None, None, x.profile, x.tiles);
    var token, text, found := TokenOf(x), TextOf(keying, a), route(a, x).value;
    var steps := [Ask(a), Ask(b)];
    var s := Service(bare, map[]);
    assert BasisOf(bare, a.mode) == BasisOf(bare, b.mode) == x;
    var s1 := After(env, s, steps[0]);
    assert s1 == Service(bare, map[text := Entry(found, token, 0, x)]);
    assert RouteOf(Serve(env, s1, b).1) == Ok(found);
    assert steps[1..] == [Ask(b)] && steps[1..][1..] == [];
    assert Answers(env, s1, steps[1..]) == [Ok(found)];
    assert Answers(env, s, steps)[1] == Ok(found);
    assert DirectAnswers(env, bare, steps[1..]) == [Direct(env, bare, b).1];
    assert DirectAnswers(env, bare, steps)[1] == Direct(env, bare, b).1 != Ok(found);
    assert Within(requests, steps);
    assert Answers(Env(build, route, keying), Service(bare, map[]), steps)
        != DirectAnswers(Env(build, route, keying), bare, steps);
  }

  // The first build gets one name, every later one the other.
  function TwoNames(v: string, w: string): Builder {
    (calls: seq<string>, feed: string) => if calls == [] then Version(v) else Version(w)
  }

  // A feed this request does not object to.
  function FeedFor(q: Request): string { if q.feed.Some? && q.feed.value != "" then q.feed.value else "f" }

  // The same after another build whose name the token does not tell from the first.
  lemma SharedTokenMisleads(route: Routing, keying: Keying, requests: iset<Request>, a: Request, v: string, b: Request,
                            w: string)
    requires a in requests && b in requests && Shares(keying, a, b) && a.mode == Transit
    requires Nameless(Some(v)) && Nameless(Some(w))
    requires route(a, OnGraph(Some(v))).Ok? && route(a, OnGraph(Some(v))) != route(b, OnGraph(Some(w)))
    ensures !Refines(route, keying, requests)
  {
    hide Serve, Direct, Reconfigured, TextOf, After, Refines;
    var env := Env(TwoNames(v, w), route, keying);
    var fa, fb := FeedFor(a), FeedFor(b);
    var other := fa + fb + "o";
    assert fa != other && fb != other && fa != "" && fb != "";
    var s0 := Service(Router(Some(NEW_GRAPH), None, "", ""), map[]);
    var e := Entry(route(a, OnGraph(Some(v))).value, "otp:unknown", 1, OnGraph(Some(v)));
    NextFeed(env, s0, fa);
    var s1 := After(env, s0, RegisterFeed(fa));
    FirstBuild(env, s1, a, v);
    AfterAsk(env, s1, a);
    var s2 := After(env, s1, Ask(a));
    NextFeed(env, s2, other);
    var s3 := After(env, s2, RegisterFeed(other));
    SecondBuild(env, s3, a, w, e);
    AfterAsk(env, s3, a);
    var s4 := After(env, s3, Ask(a));
    NextFeed(env, s4, fb);
    var s5 := After(env, s4, RegisterFeed(fb));
    LastAnswer(env, s5, b, w, e);
    var steps := [RegisterFeed(fa), Ask(a), RegisterFeed(other), Ask(a), RegisterFeed(fb), Ask(b)];
    SixAnswers(env, s0, steps);
    NotRefined(route, keying, requests, env, s0.router, steps);
  }

  lemma NotRefined(route: Routing, keying: Keying, requests: iset<Request>, env: Env, r: Router, steps: seq<Step>)
    requires env.route == route && env.keying == keying && Within(requests, steps)
    requires Answers(env, Service(r, map[]), steps) != DirectAnswers(env, r, steps)
    ensures !Refines(route, keying, requests)
  {
    hide Answers, DirectAnswers;
    assert env == Env(env.build, route, keying);
  }

  lemma NextFeed(env: Env, s: Service, feed: string)
    requires s.router.graphs.Some?
    ensures After(env, s, RegisterFeed(feed)) ==
            s.(router := s.router.(graphs := Some(s.router.graphs.value.(active := Some(feed)))))
  {
  }

  lemma AfterAsk(env: Env, s: Service, q: Request)
    ensures After(env, s, Ask(q)) == Serve(env, s, q).0
  {
    hide Serve;
  }

  lemma FirstBuild(env: Env, s: Service, a: Request, v: string)
    requires a.mode == Transit && Nameless(Some(v)) && env.route(a, OnGraph(Some(v))).Ok? && s.entries == map[]
    requires s.router.graphs == Some(NEW_GRAPH.(active := Some(FeedFor(a))))
    requires env.build([], FeedFor(a)) == Version(v)
    ensures var e := Entry(env.route(a, OnGraph(Some(v))).value, "otp:unknown", 1, OnGraph(Some(v)));
            var f := FeedFor(a);
            var r := Router(Some(Graph(Some(f), Some(v), Some(f), 0, 1, [f])), Some(v), s.router.profile,
                            s.router.tiles);
            && Serve(env, s, a).0 == Service(r, map[TextOf(env.keying, a) := e])
            && Direct(env, s.router, a).0 == r
  {
    hide TextOf;
    assert TransitToken(Some(v)) == "otp:unknown";
    assert [] + [FeedFor(a)] == [FeedFor(a)];
    var f := FeedFor(a);
    assert Prepare(env.build, s.router, a.mode) ==
           (Router(Some(Graph(Some(f), Some(v), Some(f), 0, 1, [f])), Some(v), s.router.profile, s.router.tiles), None);
  }

  // The entry is hit, or the feed objected to; it stays either way.
  lemma SecondBuild(env: Env, s: Service, a: Request, w: string, e: Entry)
    requires s.router.graphs.Some? && a.mode == Transit && Nameless(Some(w)) && e.token == "otp:unknown"
    requires TextOf(env.keying, a) in s.entries && s.entries == map[TextOf(env.keying, a) := e]
    requires var g := s.router.graphs.value;
             && g.active.Some? && g.active.value != "" && g.versionOf != g.active
             && env.build(g.calls, g.active.value) == Version(w)
    ensures var s', r' := Serve(env, s, a).0, Direct(env, s.router, a).0;
            && s'.router == r' && s'.entries == s.entries
            && r'.graphs == Some(Rebuild(env.build, s.router.graphs.value, s.router.graphs.value.active.value).0)
  {
    hide TextOf;
  }

  lemma LastAnswer(env: Env, s: Service, b: Request, w: string, e: Entry)
    requires s.router.graphs.Some? && b.mode == Transit && Nameless(Some(w)) && e.token == "otp:unknown"
    requires TextOf(env.keying, b) in s.entries && s.entries[TextOf(env.keying, b)] == e
    requires var g := s.router.graphs.value;
             && g.active == Some(FeedFor(b)) && g.versionOf != g.active
             && env.build(g.calls, g.active.value) == Version(w)
    requires env.route(b, OnGraph(Some(w))) != Ok(e.route)
    ensures RouteOf(Serve(env, s, b).1) != Direct(env, s.router, b).1
  {
    hide TextOf;
  }

  lemma SixAnswers(env: Env, s: Service, steps: seq<Step>)
    requires |steps| == 6 && steps[0].RegisterFeed? && steps[1].Ask? && steps[2].RegisterFeed? && steps[3].Ask?
    requires steps[4].RegisterFeed? && steps[5].Ask?
    requires var s1 := After(env, s, steps[0]);
             var s2 := After(env, s1, steps[1]);
             var s3 := After(env, s2, steps[2]);
             var s4 := After(env, s3, steps[3]);
             var s5 := After(env, s4, steps[4]);
             && s2.router == Direct(env, s1.router, steps[1].request).0
             && s4.router == Direct(env, s3.router, steps[3].request).0
             && RouteOf(Serve(env, s5, steps[5].request).1) != Direct(env, s5.router, steps[5].request).1
    ensures Answers(env, s, steps) != DirectAnswers(env, s.router, steps)
  {
    hide Serve, Direct, Reconfigured;
    var s1 := After(env, s, steps[0]);
    var s2 := After(env, s1, steps[1]);
    var s3 := After(env, s2, steps[2]);
    var s4 := After(env, s3, steps[3]);
    var s5 := After(env, s4, steps[4]);
    FirstAnswer(env, s, steps);
    FirstAnswer(env, s1, steps[1..]);
    FirstAnswer(env, s2, steps[2..]);
    FirstAnswer(env, s3, steps[3..]);
    FirstAnswer(env, s4, steps[4..]);
    FirstAnswer(env, s5, steps[5..]);
    assert steps[1..][1..] == steps[2..] && steps[2..][1..] == steps[3..] && steps[3..][1..] == steps[4..];
    assert steps[4..][1..] == steps[5..] && steps[5..][1..] == [];
  }

  // Answers that differ later differ from the start.
  lemma FirstAnswer(env: Env, s: Service, steps: seq<Step>)
    requires steps != []
    requires steps[0].Ask? ==>
               || After(env, s, steps[0]).router == Direct(env, s.router, steps[0].request).0
               || RouteOf(Serve(env, s, steps[0].request).1) != Direct(env, s.router, steps[0].request).1
    ensures steps[0].Ask? && RouteOf(Serve(env, s, steps[0].request).1) != Direct(env, s.router, steps[0].request).1 ==>
              Answers(env, s, steps) != DirectAnswers(env, s.router, steps)
    ensures var s' := After(env, s, steps[0]);
            Answers(env, s', steps[1..]) != DirectAnswers(env, s'.router, steps[1..]) ==>
              Answers(env, s, steps) != DirectAnswers(env, s.router, steps)
  {
    hide Serve, Direct, Reconfigured;
    var s' := After(env, s, steps[0]);
    if steps[0].Ask? {
      var x, y := RouteOf(Serve(env, s, steps[0].request).1), Direct(env, s.router, steps[0].request).1;
      var xs := Answers(env, s', steps[1..]);
      var ys := DirectAnswers(env, Direct(env, s.router, steps[0].request).0, steps[1..]);
      assert ([x] + xs)[0] == x && ([y] + ys)[0] == y && ([x] + xs)[1..] == xs && ([y] + ys)[1..] == ys;
      assert Answers(env, s, steps) == [x] + xs && DirectAnswers(env, s.router, steps) == [y] + ys;
    } else {
      assert Answers(env, s, steps) == [] + Answers(env, s', steps[1..]);
    }
  }

  // Routing sees no more of a graph's name than the token does.
  ghost predicate RespectsNames(route: Routing) {
    forall q, x, y {:trigger route(q, x), route(q, y)} :: Alike(x, y) ==> route(q, x) == route(q, y)
  }

  // The key keeps neither the coordinates nor the exact time, so over all such routings the cache is safe exactly for
  // requests that never share a text with another.
  lemma CacheRefinesEveryRoutingIff(keying: Keying, requests: iset<Request>)
    ensures (forall route :: RespectsNames(route) ==> Refines(route, keying, requests)) <==>
            (forall a, b :: a in requests && b in requests && Shares(keying, a, b) ==> a == b)
  {
    hide Shares, Refines;
    if a, b :| a in requests && b in requests && Shares(keying, a, b) && a != b {
      var route: Routing := (q: Request, x: Basis) => Ok(Route(if q == a then 1.0 else 0.0, 0.0));
      var x := BasisOf(Router(None, None, "", ""), a.mode);
      assert !SameRoute(route, a, x, b, x) && Alike(x, x) && Suits(a.mode, x);
      CacheRefinesRoutingIff(route, keying, requests);
      assert RespectsNames(route);
    } else {
      forall route | RespectsNames(route) ensures Refines(route, keying, requests) {
        CacheRefinesRoutingIff(route, keying, requests);
      }
    }
  }

  // A routing that sees no more of the request than its key.
  function Keyed(byKey: (CacheKey, string) -> Result<Route, string>, keying: Keying): Routing {
    (q: Request, x: Basis) => byKey(KeyOf(keying, q), TokenOf(x))
  }

  // The text form tells the requests' keys apart wherever their tokens can coincide.
  ghost predicate Separate(keying: Keying, requests: iset<Request>) {
    forall a, b :: a in requests && b in requests && Shares(keying, a, b) ==> KeyOf(keying, a) == KeyOf(keying, b)
  }

  // When routing depends only on the key, it is enough, and necessary, that the keys have texts of their own.
  lemma CacheRefinesKeyedRoutingIff(keying: Keying, requests: iset<Request>)
    ensures (forall byKey :: Refines(Keyed(byKey, keying), keying, requests)) <==> Separate(keying, requests)
  {
    hide Shares, Refines;
    if Separate(keying, requests) {
      forall byKey ensures Refines(Keyed(byKey, keying), keying, requests) {
        SameNamesSameToken();
        CacheRefinesRoutingIff(Keyed(byKey, keying), keying, requests);
      }
    } else {
      var a, b :| a in requests && b in requests && Shares(keying, a, b) && KeyOf(keying, a) != KeyOf(keying, b);
      var byKey := (k: CacheKey, token: string) => Ok(Route(if k == KeyOf(keying, a) then 1.0 else 0.0, 0.0));
      var x := BasisOf(Router(None, None, "", ""), a.mode);
      assert !SameRoute(Keyed(byKey, keying), a, x, b, x) && Alike(x, x) && Suits(a.mode, x);
      CacheRefinesRoutingIff(Keyed(byKey, keying), keying, requests);
    }
  }

  lemma SameNamesSameToken()
    ensures forall x, y :: Alike(x, y) ==> TokenOf(x) == TokenOf(y)
  {
  }

  // Keys without the separator character always have.
  lemma PlainKeysAreSeparate(keying: Keying, byKey: (CacheKey, string) -> Result<Route, string>)
    ensures Refines(Keyed(byKey, keying), keying, iset q: Request | Plain(KeyOf(keying, q)))
  {
    var requests := iset q: Request | Plain(KeyOf(keying, q));
    forall a, b | a in requests && b in requests && Shares(keying, a, b) ensures KeyOf(keying, a) == KeyOf(keying, b) {
      ToKeyInjective(KeyOf(keying, a), KeyOf(keying, b));
    }
    CacheRefinesKeyedRoutingIff(keying, requests);
  }

  // ---------- A hit belongs to what the router routes by ----------

  // Every walk, bike or drive hit of the run was routed with the profile and the tiles the router has now.
  predicate RoadHitsAreCurrent(env: Env, s: Service, steps: seq<Step>) {
    steps == [] ||
      (var init, last := steps[..|steps| - 1], steps[|steps| - 1];
       && RoadHitsAreCurrent(env, s, init)
       && (last.Ask? && last.request.mode != Transit ==> RoadHitIsCurrent(env, AfterAll(env, s, init), last.request)))
  }

  predicate RoadHitIsCurrent(env: Env, s: Service, q: Request) {
    var (after, reply) := Serve(env, s, q);
    reply.Ok? && reply.value.hit && reply.value.key in s.entries ==>
      s.entries[reply.value.key].basis == OnRoads(s.router.profile, s.router.tiles)
  }

  // Every entry carries the token of its basis.
  ghost predicate Labelled(s: Service) {
    forall text :: text in s.entries ==>
      Had(s.router, s.entries[text].basis) && s.entries[text].token == TokenOf(s.entries[text].basis)
  }

  lemma LabelledStep(env: Env, s: Service, step: Step)
    requires Labelled(s)
    ensures Labelled(After(env, s, step))
    ensures step.Ask? && step.request.mode != Transit ==> RoadHitIsCurrent(env, s, step.request)
  {
    hide TextOf, TokenOf;
    if step.Ask? {
      var q := step.request;
      var (r, error) := Prepare(env.build, s.router, q.mode);
      PrepareKeepsBases(env.build, s.router, q.mode);
      var text := TextOf(env.keying, q);
      if error == None && Hit(s, text, Token(r, q.mode)) && q.mode != Transit {
        TokensTell(r, s.entries[text].basis, BasisOf(r, q.mode));
      }
      assert Labelled(s.(router := r));
    } else {
      assert SameBases(s.router, Reconfigured(s.router, step));
    }
  }

  lemma {:induction false} LabelledRuns(env: Env, s: Service, steps: seq<Step>)
    requires Labelled(s)
    ensures Labelled(AfterAll(env, s, steps)) && RoadHitsAreCurrent(env, s, steps)
  {
    hide Labelled, After, RoadHitIsCurrent;
    if steps != [] {
      var init, last := steps[..|steps| - 1], steps[|steps| - 1];
      LabelledRuns(env, s, init);
      LabelledStep(env, AfterAll(env, s, init), last);
    }
  }

  // Whatever requests, feeds and profiles follow each other, a hit on roads is never of another profile.
  lemma RoadHitsBelongToTheProfile(env: Env, r: Router, steps: seq<Step>)
    ensures RoadHitsAreCurrent(env, Service(r, map[]), steps)
  {
    LabelledRuns(env, Service(r, map[]), steps);
  }

  // ---------- A transit hit belongs to the current build ----------

  function AfterAll(env: Env, s: Service, steps: seq<Step>): Service {
    if steps == [] then s else After(env, AfterAll(env, s, steps[..|steps| - 1]), steps[|steps| - 1])
  }

  // Every transit hit of the run was stored since the graph in use was built.
  predicate HitsAreCurrent(env: Env, s: Service, steps: seq<Step>) {
    steps == [] ||
      (var init, last := steps[..|steps| - 1], steps[|steps| - 1];
       && HitsAreCurrent(env, s, init)
       && (last.Ask? && last.request.mode == Transit ==> HitIsCurrent(env, AfterAll(env, s, init), last.request)))
  }

  predicate HitIsCurrent(env: Env, s: Service, q: Request) {
    var (after, reply) := Serve(env, s, q);
    reply.Ok? && reply.value.hit && reply.value.key in s.entries ==>
      s.entries[reply.value.key].createdAt == BuiltAt(after.router)
  }

  function NewService(version: Option<string>, profile: string, tiles: string): Service {
    Service(Router(Some(NEW_GRAPH), version, profile, tiles), map[])
  }

  ghost predicate AlwaysCurrent(build: Builder) {
    forall route: Routing, keying: Keying, version: Option<string>, profile: string, tiles: string, steps: seq<Step> ::
      HitsAreCurrent(Env(build, route, keying), NewService(version, profile, tiles), steps)
  }

  // The graph after these feeds have been made active and ensured one after the other.
  function History(build: Builder, feeds: seq<string>): Graph {
    if feeds == [] then NEW_GRAPH
    else Ensured(build, History(build, feeds[..|feeds| - 1]).(active := Some(feeds[|feeds| - 1]))).0
  }

  // The last of them could be used.
  predicate Usable(build: Builder, feeds: seq<string>) {
    feeds != [] && Ensured(build, History(build, feeds[..|feeds| - 1]).(active := Some(feeds[|feeds| - 1]))).1 == None
  }

  function TokenAfter(build: Builder, feeds: seq<string>): string { TransitToken(History(build, feeds).version) }

  // However feeds follow each other, two builds never get one token.
  ghost predicate TellsBuildsApart(build: Builder) {
    forall feeds: seq<string>, i {:trigger History(build, feeds[..i]), Usable(build, feeds)} ::
      0 < i <= |feeds| && Usable(build, feeds[..i]) && Usable(build, feeds)
      && TokenAfter(build, feeds[..i]) == TokenAfter(build, feeds)
      ==> History(build, feeds[..i]).builtAt == History(build, feeds).builtAt
  }

  ghost predicate StampedAt(build: Builder, feeds: seq<string>, e: Entry, i: int) {
    && 0 < i <= |feeds| && Usable(build, feeds[..i])
    && e.token == TokenAfter(build, feeds[..i]) && e.createdAt == History(build, feeds[..i]).builtAt
  }

  ghost predicate Stamped(build: Builder, feeds: seq<string>, e: Entry) {
    "otp:" <= e.token ==> exists i :: StampedAt(build, feeds, e, i)
  }

  // The graph manager went through these feeds, and each transit entry carries the token and the time of a build of
  // theirs.
  ghost predicate Follows(build: Builder, feeds: seq<string>, s: Service) {
    && s.router.graphs.Some? && s.router.graphs.value == History(build, feeds).(active := s.router.graphs.value.active)
    && forall text :: text in s.entries ==> Stamped(build, feeds, s.entries[text])
  }

  lemma HistoryNext(build: Builder, feeds: seq<string>, feed: string)
    ensures var next := Ensured(build, History(build, feeds).(active := Some(feed)));
            History(build, feeds + [feed]) == next.0 && (Usable(build, feeds + [feed]) <==> next.1 == None)
  {
    assert (feeds + [feed])[..|feeds|] == feeds;
  }

  lemma StampedOn(build: Builder, feeds: seq<string>, feed: string, e: Entry)
    requires Stamped(build, feeds, e)
    ensures Stamped(build, feeds + [feed], e)
  {
    if "otp:" <= e.token {
      var i :| StampedAt(build, feeds, e, i);
      assert (feeds + [feed])[..i] == feeds[..i];
      assert StampedAt(build, feeds + [feed], e, i);
    }
  }

  // The feeds the graph manager has gone through after one more step.
  function FeedsAfter(s: Service, step: Step, feeds: seq<string>): seq<string> {
    if step.Ask? && step.request.mode == Transit && s.router.graphs.Some? && s.router.graphs.value.active.Some?
       && s.router.graphs.value.active.value != ""
    then feeds + [s.router.graphs.value.active.value] else feeds
  }

  lemma PreparedFollows(env: Env, s: Service, q: Request, feeds: seq<string>)
    requires Follows(env.build, feeds, s) && q.mode == Transit
    ensures var (r, error) := Prepare(env.build, s.router, q.mode);
            var more := FeedsAfter(s, Ask(q), feeds);
            && Follows(env.build, more, s.(router := r))
            && (error == None ==> Usable(env.build, more) && Token(r, Transit) == TokenAfter(env.build, more)
                                  && BuiltAt(r) == History(env.build, more).builtAt)
  {
    var g := s.router.graphs.value;
    if g.active.Some? && g.active.value != "" {
      HistoryNext(env.build, feeds, g.active.value);
      assert g == History(env.build, feeds).(active := g.active);
      forall text | text in s.entries ensures Stamped(env.build, feeds + [g.active.value], s.entries[text]) {
        StampedOn(env.build, feeds, g.active.value, s.entries[text]);
      }
    }
  }

  lemma StepFollows(env: Env, s: Service, step: Step, feeds: seq<string>)
    requires TellsBuildsApart(env.build) && Follows(env.build, feeds, s)
    ensures Follows(env.build, FeedsAfter(s, step, feeds), After(env, s, step))
    ensures step.Ask? && step.request.mode == Transit ==> HitIsCurrent(env, s, step.request)
  {
    hide Usable, History, TokenAfter, TextOf, Ensured, Stamped;
    if step.Ask? {
      var q := step.request;
      var (r, error) := Prepare(env.build, s.router, q.mode);
      TokenPrefix(r, q.mode);
      if q.mode == Transit {
        PreparedFollows(env, s, q, feeds);
        AskFollows(env, s, q, FeedsAfter(s, step, feeds));
      } else {
        forall e: Entry ensures e.token == Token(r, q.mode) ==> Stamped(env.build, feeds, e) {
          RoadEntryStamped(env.build, feeds, e);
        }
      }
    }
  }

  lemma RoadEntryStamped(build: Builder, feeds: seq<string>, e: Entry)
    ensures !("otp:" <= e.token) ==> Stamped(build, feeds, e)
  {
  }

  lemma AskFollows(env: Env, s: Service, q: Request, feeds: seq<string>)
    requires TellsBuildsApart(env.build) && q.mode == Transit
    requires var (r, error) := Prepare(env.build, s.router, q.mode);
             && Follows(env.build, feeds, s.(router := r))
             && (error == None ==> Usable(env.build, feeds) && Token(r, Transit) == TokenAfter(env.build, feeds)
                                   && BuiltAt(r) == History(env.build, feeds).builtAt)
    ensures Follows(env.build, feeds, Serve(env, s, q).0) && HitIsCurrent(env, s, q)
  {
    var (r, error) := Prepare(env.build, s.router, q.mode);
    var text, token := TextOf(env.keying, q), Token(r, Transit);
    assert error == None ==> |feeds| > 0;
    hide Usable, History, TokenAfter, TextOf, Prepare;
    assert feeds[..|feeds|] == feeds;
    TokenPrefix(r, Transit);
    if error == None && Hit(s, text, token) {
      assert Stamped(env.build, feeds, s.entries[text]);
      var i :| StampedAt(env.build, feeds, s.entries[text], i);
      assert History(env.build, feeds[..i]).builtAt == History(env.build, feeds).builtAt;
    }
    if error == None {
      forall e: Entry ensures e.token == token && e.createdAt == BuiltAt(r) ==> Stamped(env.build, feeds, e) {
        if e.token == token && e.createdAt == BuiltAt(r) { assert StampedAt(env.build, feeds, e, |feeds|); }
      }
    }
  }

  lemma {:induction false} FollowedRuns(env: Env, s: Service, steps: seq<Step>) returns (feeds: seq<string>)
    requires TellsBuildsApart(env.build) && Follows(env.build, [], s)
    ensures Follows(env.build, feeds, AfterAll(env, s, steps)) && HitsAreCurrent(env, s, steps)
  {
    hide TellsBuildsApart, Follows, After, HitIsCurrent;
    if steps == [] {
      feeds := [];
    } else {
      var init, last := steps[..|steps| - 1], steps[|steps| - 1];
      var before := FollowedRuns(env, s, init);
      StepFollows(env, AfterAll(env, s, init), last, before);
      feeds := FeedsAfter(AfterAll(env, s, init), last, before);
    }
  }

  // The request that comes back, and the one asked in between.
  const HERE := Place(0.0, 0.0)
  const RETURNING := Request(HERE, HERE, "", "", Transit, 0, None)
  const PASSING := Request(HERE, HERE, "o", "", Transit, 0, None)

  const ANYWHERE: Routing := (q: Request, x: Basis) => Ok(Route(0.0, 0.0))

  const AS_IS := Keying(s => s, _ => "")

  // Every request is routed, and keys are written as they are.
  ghost predicate Easy(env: Env) { env.keying == AS_IS && forall q, x :: env.route(q, x).Ok? }

  lemma AnywhereIsEasy(build: Builder)
    ensures Easy(Env(build, ANYWHERE, AS_IS))
  {
  }

  // The first n feeds are made active one after the other; at the i-th and the last one the returning request is asked.
  function Script(feeds: seq<string>, i: nat, n: nat): seq<Step>
    requires n <= |feeds|
  {
    if n == 0 then []
    else Script(feeds, i, n - 1)
         + [RegisterFeed(feeds[n - 1]), Ask(if n == i || n == |feeds| then RETURNING else PASSING)]
  }

  lemma TextsDiffer()
    ensures TextOf(AS_IS, RETURNING) != TextOf(AS_IS, PASSING)
  {
    if TextOf(AS_IS, RETURNING) == TextOf(AS_IS, PASSING) {
      ToKeyInjective(KeyOf(AS_IS, RETURNING), KeyOf(AS_IS, PASSING));
    }
  }

  lemma AfterTwo(env: Env, s: Service, steps: seq<Step>, e1: Step, e2: Step)
    ensures AfterAll(env, s, steps + [e1, e2]) == After(env, After(env, AfterAll(env, s, steps), e1), e2)
    ensures HitsAreCurrent(env, s, steps + [e1, e2]) && e2.Ask? && e2.request.mode == Transit ==>
              HitIsCurrent(env, After(env, AfterAll(env, s, steps), e1), e2.request)
  {
    hide After, HitIsCurrent;
    assert (steps + [e1, e2])[..|steps| + 1] == steps + [e1] && (steps + [e1])[..|steps|] == steps;
    assert AfterAll(env, s, steps + [e1]) == After(env, AfterAll(env, s, steps), e1);
  }

  // After the first n feeds of the script: the graph is that of their history, and the returning request has its entry
  // from the i-th feed.
  ghost predicate Scripted(env: Env, feeds: seq<string>, i: nat, n: nat, s: Service)
    requires n <= |feeds| && i <= |feeds|
  {
    var text := TextOf(AS_IS, RETURNING);
    && s.router.graphs == Some(History(env.build, feeds[..n]))
    && (text in s.entries <==> i <= n)
    && (i <= n ==> s.entries[text].token == TokenAfter(env.build, feeds[..i])
                   && s.entries[text].createdAt == History(env.build, feeds[..i]).builtAt)
  }

  lemma ScriptNext(env: Env, feeds: seq<string>, i: nat, n: nat, s: Service, q: Request)
    requires 0 < n < |feeds| && 0 < i < |feeds| && Usable(env.build, feeds[..i]) && Scripted(env, feeds, i, n - 1, s)
    requires Easy(env)
    requires q == if n == i then RETURNING else PASSING
    ensures Scripted(env, feeds, i, n, After(env, After(env, s, RegisterFeed(feeds[n - 1])), Ask(q)))
  {
    hide History, Usable, Ensured, TextOf;
    TextsDiffer();
    var s1 := After(env, s, RegisterFeed(feeds[n - 1]));
    assert feeds[..n] == feeds[..n - 1] + [feeds[n - 1]];
    HistoryNext(env.build, feeds[..n - 1], feeds[n - 1]);
    assert !Mismatch(Prepare(env.build, s1.router, Transit).0, q);
  }

  lemma {:induction false} ScriptRuns(env: Env, feeds: seq<string>, i: nat, n: nat)
    requires n < |feeds| && 0 < i < |feeds| && Usable(env.build, feeds[..i])
    requires Easy(env)
    ensures Scripted(env, feeds, i, n, AfterAll(env, NewService(None, "", ""), Script(feeds, i, n)))
  {
    if n > 0 {
      ScriptStep(feeds, i, n);
      ScriptRuns(env, feeds, i, n - 1);
      hide Scripted, Script, After, Usable, AfterAll, HitIsCurrent, HitsAreCurrent, Easy, History;
      var init, q := Script(feeds, i, n - 1), if n == i then RETURNING else PASSING;
      AfterTwo(env, NewService(None, "", ""), init, RegisterFeed(feeds[n - 1]), Ask(q));
      ScriptNext(env, feeds, i, n, AfterAll(env, NewService(None, "", ""), init), q);
    }
  }

  lemma ScriptStep(feeds: seq<string>, i: nat, n: nat)
    requires 0 < n < |feeds|
    ensures Script(feeds, i, n) ==
            Script(feeds, i, n - 1) + [RegisterFeed(feeds[n - 1]), Ask(if n == i then RETURNING else PASSING)]
  {
  }

  // Once a token comes back with another build, the entry of the earlier build is served.
  lemma ReturningTokenRevives(build: Builder, feeds: seq<string>, i: nat)
    requires 0 < i <= |feeds| && Usable(build, feeds[..i]) && Usable(build, feeds)
    requires TokenAfter(build, feeds[..i]) == TokenAfter(build, feeds)
    requires History(build, feeds[..i]).builtAt != History(build, feeds).builtAt
    ensures !AlwaysCurrent(build)
  {
    hide History, Usable, TokenAfter, Script, AfterAll, After, Scripted, HitIsCurrent, HitsAreCurrent, Easy,
      AlwaysCurrent;
    var n, env := |feeds|, Env(build, ANYWHERE, AS_IS);
    assert feeds[..n] == feeds;
    AnywhereIsEasy(build);
    ScriptRuns(env, feeds, i, n - 1);
    var init, s0 := Script(feeds, i, n - 1), NewService(None, "", "");
    var s, last := AfterAll(env, s0, init), RegisterFeed(feeds[n - 1]);
    StaleHit(env, feeds, i, s);
    AfterTwo(env, s0, init, last, Ask(RETURNING));
    NotAlwaysCurrent(build, env, init + [last, Ask(RETURNING)]);
  }

  lemma NotAlwaysCurrent(build: Builder, env: Env, steps: seq<Step>)
    requires env.build == build && !HitsAreCurrent(env, NewService(None, "", ""), steps)
    ensures !AlwaysCurrent(build)
  {
    hide HitsAreCurrent;
    assert env == Env(build, env.route, env.keying);
  }

  lemma StaleHit(env: Env, feeds: seq<string>, i: nat, s: Service)
    requires 0 < i < |feeds| && Usable(env.build, feeds) && Scripted(env, feeds, i, |feeds| - 1, s)
    requires Easy(env) && TokenAfter(env.build, feeds[..i]) == TokenAfter(env.build, feeds)
    requires History(env.build, feeds[..i]).builtAt != History(env.build, feeds).builtAt
    ensures !HitIsCurrent(env, After(env, s, RegisterFeed(feeds[|feeds| - 1])), RETURNING)
  {
    hide History, Usable, Ensured, TextOf;
    var last := feeds[|feeds| - 1];
    var s1 := After(env, s, RegisterFeed(last));
    assert feeds == feeds[..|feeds| - 1] + [last];
    HistoryNext(env.build, feeds[..|feeds| - 1], last);
    var (r, error) := Prepare(env.build, s1.router, Transit);
    assert error == None && Token(r, Transit) == TokenAfter(env.build, feeds);
    assert Hit(s1, TextOf(AS_IS, RETURNING), Token(r, Transit));
  }

  // A transit hit never returns a route of an earlier graph build, in any run, exactly for builders that give distinct
  // builds distinct tokens.
  lemma HitsAreCurrentIff(build: Builder)
    ensures AlwaysCurrent(build) <==> TellsBuildsApart(build)
  {
    if TellsBuildsApart(build) {
      hide TellsBuildsApart;
      forall route: Routing, keying: Keying, version: Option<string>, profile: string, tiles: string, steps: seq<Step>
        ensures HitsAreCurrent(Env(build, route, keying), NewService(version, profile, tiles), steps)
      {
        var feeds := FollowedRuns(Env(build, route, keying), NewService(version, profile, tiles), steps);
      }
    } else {
      var feeds: seq<string>, i :|
        0 < i <= |feeds| && Usable(build, feeds[..i]) && Usable(build, feeds)
        && TokenAfter(build, feeds[..i]) == TokenAfter(build, feeds)
        && History(build, feeds[..i]).builtAt != History(build, feeds).builtAt;
      ReturningTokenRevives(build, feeds, i);
    }
  }

  // ---------- Builders that look only at the feed ----------

  function FromFeed(byFeed: string -> Built): Builder { (calls: seq<string>, feed: string) => byFeed(feed) }

  // At most one feed can ever be built under a name of the builder's choosing, and
  // then no other feed can be built at all.
  ghost predicate NamesNothingTwice(byFeed: string -> Built) {
    forall f, g :: f != "" && g != "" && f != g && byFeed(f).Version? ==> byFeed(g).Failed?
  }

  // Under a builder that names nothing, versions are counted.
  lemma {:induction false} CountedHistory(byFeed: string -> Built, feeds: seq<string>)
    requires forall f :: f != "" ==> !byFeed(f).Version?
    ensures var g := History(FromFeed(byFeed), feeds);
            g.builtAt == g.counter && g.version == if g.counter == 0 then None else Some(GraphName(g.counter))
  {
    if feeds != [] { CountedHistory(byFeed, feeds[..|feeds| - 1]); }
  }

  // Under one that can build a single feed, there is one build.
  lemma {:induction false} SingleHistory(byFeed: string -> Built, feeds: seq<string>, f: string)
    requires forall g :: g != "" && g != f ==> byFeed(g).Failed?
    ensures var g := History(FromFeed(byFeed), feeds);
            g.builtAt <= 1 && (g.builtAt == 0 <==> g.version == None) && (g.builtAt == 1 ==> g.versionOf == Some(f))
  {
    if feeds != [] { SingleHistory(byFeed, feeds[..|feeds| - 1], f); }
  }

  lemma UsableHasVersion(build: Builder, feeds: seq<string>)
    requires Usable(build, feeds)
    ensures History(build, feeds).version.Some?
  {
  }

  // For such a builder the condition can be read off its answers.
  lemma FeedBuilderIff(byFeed: string -> Built)
    ensures AlwaysCurrent(FromFeed(byFeed)) <==> NamesNothingTwice(byFeed)
  {
    var build := FromFeed(byFeed);
    HitsAreCurrentIff(build);
    hide AlwaysCurrent;
    if NamesNothingTwice(byFeed) {
      forall feeds: seq<string>, i | 0 < i <= |feeds| && Usable(build, feeds[..i]) && Usable(build, feeds)
                                     && TokenAfter(build, feeds[..i]) == TokenAfter(build, feeds)
        ensures History(build, feeds[..i]).builtAt == History(build, feeds).builtAt
      {
        SameTokenSameBuild(byFeed, feeds[..i], feeds);
      }
    } else {
      var f, g :| f != "" && g != "" && f != g && byFeed(f).Version? && !byFeed(g).Failed?;
      ReturningFeed(byFeed, f, g);
    }
  }

  lemma SameTokenSameBuild(byFeed: string -> Built, before: seq<string>, feeds: seq<string>)
    requires NamesNothingTwice(byFeed) && Usable(FromFeed(byFeed), before) && Usable(FromFeed(byFeed), feeds)
    requires TokenAfter(FromFeed(byFeed), before) == TokenAfter(FromFeed(byFeed), feeds)
    ensures History(FromFeed(byFeed), before).builtAt == History(FromFeed(byFeed), feeds).builtAt
  {
    UsableHasVersion(FromFeed(byFeed), before);
    UsableHasVersion(FromFeed(byFeed), feeds);
    hide History, Usable;
    if f :| f != "" && byFeed(f).Version? {
      SingleHistory(byFeed, before, f);
      SingleHistory(byFeed, feeds, f);
    } else {
      CountedHistory(byFeed, before);
      CountedHistory(byFeed, feeds);
      TransitTokensTellBuildsApart(History(FromFeed(byFeed), before).counter, History(FromFeed(byFeed), feeds).counter);
    }
  }

  // Returning to a named feed brings back the token of its earlier build.
  lemma ReturningFeed(byFeed: string -> Built, f: string, g: string)
    requires f != "" && g != "" && f != g && byFeed(f).Version? && !byFeed(g).Failed?
    ensures !TellsBuildsApart(FromFeed(byFeed))
  {
    var build, feeds := FromFeed(byFeed), [f, g, f];
    assert History(build, []) == NEW_GRAPH;
    ThreeBuilds(byFeed, f, g);
    hide Usable, TokenAfter, History, Ensured, FromFeed, TellsBuildsApart;
    HistoryNext(build, [], f);
    HistoryNext(build, [f], g);
    HistoryNext(build, [f, g], f);
    assert feeds[..1] == [] + [f] == [f] && [f] + [g] == [f, g] && feeds == [f, g] + [f];
    SameVersion(build, feeds[..1], feeds);
    TwiceTheSame(build, feeds, 1);
  }

  lemma TwiceTheSame(build: Builder, feeds: seq<string>, i: nat)
    requires 0 < i <= |feeds| && Usable(build, feeds[..i]) && Usable(build, feeds)
    requires TokenAfter(build, feeds[..i]) == TokenAfter(build, feeds)
    requires History(build, feeds[..i]).builtAt != History(build, feeds).builtAt
    ensures !TellsBuildsApart(build)
  {
  }

  lemma ThreeBuilds(byFeed: string -> Built, f: string, g: string)
    requires f != "" && g != "" && f != g && byFeed(f).Version? && !byFeed(g).Failed?
    ensures var build := FromFeed(byFeed);
            var g1 := Ensured(build, NEW_GRAPH.(active := Some(f)));
            var g2 := Ensured(build, g1.0.(active := Some(g)));
            var g3 := Ensured(build, g2.0.(active := Some(f)));
            && g1.1 == g2.1 == g3.1 == None && g1.0.builtAt == 1 && g3.0.builtAt == 3
            && g1.0.version == g3.0.version == Some(byFeed(f).name)
  {
  }

  lemma SameVersion(build: Builder, a: seq<string>, b: seq<string>)
    requires History(build, a).version == History(build, b).version
    ensures TokenAfter(build, a) == TokenAfter(build, b)
  {
  }

  // A builder that numbers its calls names every build afresh.
  const NUMBERING: Builder := (calls: seq<string>, feed: string) => Version(GraphName(|calls|))

  lemma {:induction false} NumberedHistory(feeds: seq<string>)
    ensures var g := History(NUMBERING, feeds);
            g.builtAt == |g.calls| && g.version == if g.builtAt == 0 then None else Some(GraphName(g.builtAt - 1))
  {
    if feeds != [] { NumberedHistory(feeds[..|feeds| - 1]); }
  }

  lemma NumberingBuilderIsCurrent()
    ensures AlwaysCurrent(NUMBERING)
  {
    HitsAreCurrentIff(NUMBERING);
    hide AlwaysCurrent, History, Usable, TokenAfter;
    forall feeds: seq<string>, i | 0 < i <= |feeds| && Usable(NUMBERING, feeds[..i]) && Usable(NUMBERING, feeds)
                                   && TokenAfter(NUMBERING, feeds[..i]) == TokenAfter(NUMBERING, feeds)
      ensures History(NUMBERING, feeds[..i]).builtAt == History(NUMBERING, feeds).builtAt
    {
      NumberedTwice(feeds[..i], feeds);
    }
  }

  lemma NumberedTwice(before: seq<string>, feeds: seq<string>)
    requires Usable(NUMBERING, before) && Usable(NUMBERING, feeds)
    requires TokenAfter(NUMBERING, before) == TokenAfter(NUMBERING, feeds)
    ensures History(NUMBERING, before).builtAt == History(NUMBERING, feeds).builtAt
  {
    UsableHasVersion(NUMBERING, before);
    UsableHasVersion(NUMBERING, feeds);
    hide History, Usable;
    NumberedHistory(before);
    NumberedHistory(feeds);
    TransitTokensTellBuildsApart(History(NUMBERING, before).builtAt - 1, History(NUMBERING, feeds).builtAt - 1);
  }

  lemma DefaultBuilderIsCurrent()
    ensures AlwaysCurrent(FromFeed(_ => Unnamed))
  {
    FeedBuilderIff(_ => Unnamed);
  }

  // ---------- The objects ----------

  // A graph is usable only for the active feed: it is built when there is none, or when it is another feed's. The
  // version is the builder's, or a counted one.
  ghost predicate EnsuredAs(build: Builder, g: Graph, g': Graph, r: Result<(string, string), CommuteError>) {
    && g'.active == g.active
    && (r == Err(NoFeed) <==> g.active == None || g.active == Some(""))
    && (r == Err(NoFeed) ==> g' == g)
    && (r != Err(NoFeed) ==>
          var feed := g.active.value;
          if g.version.Some? && g.versionOf == g.active then r == Ok((g.version.value, feed)) && g' == g
          else match build(g.calls, feed)
            case Failed =>
              r == Err(BuildFailed) && g'.version == g.version && g'.versionOf == g.versionOf
              && g'.builtAt == g.builtAt && g'.counter == g.counter
            case Version(name) =>
              r == Ok((name, feed)) && g'.version == Some(name) && g'.versionOf == Some(feed)
              && g'.builtAt == g.builtAt + 1 && g'.counter == g.counter
            case Unnamed =>
              && r == Ok(("otp-graph-" + Dec(g.counter + 1), feed))
              && g'.version == Some("otp-graph-" + Dec(g.counter + 1))
              && g'.versionOf == Some(feed) && g'.builtAt == g.builtAt + 1 && g'.counter == g.counter + 1)
  }

  lemma EnsuredMeans(build: Builder, g: Graph)
    ensures var (g', error) := Ensured(build, g);
            && (error == None ==> g'.version.Some? && g'.active.Some?)
            && (error.Some? ==> error == Some(NoFeed) || error == Some(BuildFailed))
            && EnsuredAs(build, g, g',
                         if error.Some? then Err(error.value) else Ok((g'.version.value, g'.active.value)))
  {
  }

  // The request is answered under the text of its key: from the cache with the stored route, or by routing on what the
  // router routes by, which is then stored. A request that names another feed than the active one is refused.
  ghost predicate CommutesAs(env: Env, s: Service, s': Service, q: Request, reply: Result<Reply, CommuteError>) {
    var text := ToKey(CacheKey(env.keying.normalize(q.cell), env.keying.normalize(q.anchor), q.mode,
                               env.keying.bucket(q.departAt)));
    && (reply.Ok? ==> reply.value.key == text && text in s'.entries && s'.entries[text].route == reply.value.route)
    && (reply.Ok? && reply.value.hit ==> s'.entries == s.entries)
    && (reply.Ok? && !reply.value.hit ==>
          && env.route(q, if q.mode == Transit then OnGraph(s'.router.otpVersion)
                          else OnRoads(s'.router.profile, s'.router.tiles)) == Ok(reply.value.route)
          && s'.entries == s.entries[text := s'.entries[text]])
    && (reply.Err? ==> s'.entries == s.entries)
    && (q.mode != Transit || s.router.graphs == None ==> s'.router == s.router && reply != Err(FingerprintMismatch))
    && (q.mode == Transit && s.router.graphs.Some? && reply != Err(NoFeed) && reply != Err(BuildFailed) ==>
          && s'.router.graphs.Some? && s'.router.graphs.value.version.Some?
          && s'.router.otpVersion == s'.router.graphs.value.version
          && s'.router.graphs.value.versionOf == s.router.graphs.value.active
          && (reply == Err(FingerprintMismatch) <==>
              q.feed.Some? && q.feed.value != "" && q.feed != s.router.graphs.value.active))
  }

  lemma ServeMeans(env: Env, s: Service, q: Request)
    ensures var (s', reply) := Serve(env, s, q); CommutesAs(env, s, s', q, reply)
  {
    hide TokenOf;
    if s.router.graphs.Some? {
      EnsuredMeans(env.build, s.router.graphs.value);
    }
  }

  class OtpGraphManager {
    const build: Builder
    var active: Option<string>
    var version: Option<string>
    var versionOf: Option<string>
    var buildCounter: nat
    var builtAt: nat
    var calls: seq<string>  // what the builder has been asked so far

    constructor (build: Builder)
      ensures View() == NEW_GRAPH && this.build == build
    {
      this.build := build;
      active, version, versionOf, buildCounter, builtAt, calls := None, None, None, 0, 0, [];
    }

    function View(): Graph
      reads this
    {
      Graph(active, version, versionOf, buildCounter, builtAt, calls)
    }

    method RegisterFeed(feed: string)
      modifies this
      ensures View() == old(View()).(active := Some(feed))
    {
      active := Some(feed);
    }

    method EnsureGraph() returns (r: Result<(string, string), CommuteError>)
      modifies this
      ensures var (g, error) := Ensured(build, old(View()));
              && View() == g
              && (error.Some? ==> r == Err(error.value))
              && (error == None ==> g.version.Some? && g.active.Some? && r == Ok((g.version.value, g.active.value)))
      ensures EnsuredAs(build, old(View()), View(), r)
    {
      EnsuredMeans(build, View());
      if active == None || active.value == "" { return Err(NoFeed); }
      if version == None || versionOf != active {
        r := RebuildGraph(active.value);
        return;
      }
      r := Ok((version.value, active.value));
    }

    method RebuildGraph(feed: string) returns (r: Result<(string, string), CommuteError>)
      modifies this
      ensures var (g, error) := Rebuild(build, old(View()), feed);
              && View() == g
              && (error.Some? ==> r == Err(error.value))
              && (error == None ==> g.version.Some? && r == Ok((g.version.value, feed)))
    {
      var answer := build(calls, feed);
      calls := calls + [feed];
      match answer {
        case Failed => return Err(BuildFailed);
        case Version(name) => version := Some(name);
        case Unnamed =>
          buildCounter := buildCounter + 1;
          version := Some(GraphName(buildCounter));
      }
      versionOf := Some(feed);
      builtAt := builtAt + 1;
      r := Ok((version.value, feed));
    }
  }

  class RoutingEngine {
    const graphs: OtpGraphManager?
    const tiles: string
    var otpVersion: Option<string>
    var profile: string

    constructor (graphs: OtpGraphManager?, otpVersion: Option<string>, profile: string, tiles: string)
      ensures this.graphs == graphs && this.otpVersion == otpVersion && this.profile == profile && this.tiles == tiles
    {
      this.graphs, this.otpVersion, this.profile, this.tiles := graphs, otpVersion, profile, tiles;
    }

    function View(): Router
      reads this, graphs
    {
      Router(if graphs == null then None else Some(graphs.View()), otpVersion, profile, tiles)
    }

    function Build(): Builder { if graphs == null then (_, _) => Unnamed else graphs.build }

    method PrepareFor(mode: Mode) returns (r: Result<(string, Option<string>), CommuteError>)
      modifies this, graphs
      ensures var (ready, error) := Prepare(Build(), old(View()), mode);
              && View() == ready
              && r == if error.Some? then Err(error.value) else Ok((Token(ready, mode), FeedOf(ready, mode)))
    {
      var feed: Option<string> := None;
      if mode == Transit && graphs != null {
        var built := graphs.EnsureGraph();
        if built.Err? { return Err(built.error); }
        otpVersion := Some(built.value.0);
        feed := Some(built.value.1);
      }
      r := Ok((Token(View(), mode), feed));
    }

    method SetProfileVersion(value: string)
      modifies this
      ensures View() == old(View()).(profile := value)
    {
      profile := value;
    }
  }

  class CommuteCache {
    var entries: map<string, Entry>

    constructor ()
      ensures entries == map[]
    {
      entries := map[];
    }

    method Get(key: string, token: string) returns (r: Option<Route>)
      ensures r == if key in entries && entries[key].token == token then Some(entries[key].route) else None
    {
      if key !in entries { return None; }
      if entries[key].token != token { return None; }
      r := Some(entries[key].route);
    }

    method Set(key: string, route: Route, token: string, now: nat, basis: Basis)
      modifies this
      ensures entries == old(entries)[key := Entry(route, token, now, basis)]
    {
      entries := entries[key := Entry(route, token, now, basis)];
    }
  }

  class GeoCommuteService {
    const router: RoutingEngine
    const cache: CommuteCache
    const route: Routing
    const keying: Keying

    constructor (router: RoutingEngine, cache: CommuteCache, route: Routing, keying: Keying)
      ensures this.router == router && this.cache == cache && this.route == route && this.keying == keying
    {
      this.router, this.cache, this.route, this.keying := router, cache, route, keying;
    }

    function View(): Service
      reads router, router.graphs, cache
    {
      Service(router.View(), cache.entries)
    }

    method Commute(q: Request) returns (reply: Result<Reply, CommuteError>)
      modifies router, router.graphs, cache
      ensures (View(), reply) == Serve(Env(router.Build(), route, keying), old(View()), q)
      ensures CommutesAs(Env(router.Build(), route, keying), old(View()), View(), q, reply)
    {
      hide Ensured, CommutesAs;
      ServeMeans(Env(router.Build(), route, keying), View(), q);
      var key := TextOf(keying, q);
      var ready := router.PrepareFor(q.mode);
      if ready.Err? { return Err(ready.error); }
      var (token, feed) := ready.value;
      if q.feed.Some? && q.feed.value != "" && feed.Some? && feed.value != "" && q.feed != feed {
        return Err(FingerprintMismatch);
      }
      var cached := cache.Get(key, token);
      if cached.Some? { return Ok(Reply(key, true, cached.value)); }
      var basis := BasisOf(router.View(), q.mode);
      var result := route(q, basis);
      if result.Err? { return Err(RoutingFailed(result.error)); }
      cache.Set(key, result.value, token, if router.graphs == null then 0 else router.graphs.builtAt, basis);
      reply := Ok(Reply(key, false, result.value));
    }
  }
}
