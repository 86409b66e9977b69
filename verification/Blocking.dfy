// services/dedupe/service.py: blocking as an index, pair scoring, and the dedupe pipeline.
module Blocking {
  import opened Prelude
  import opened Sorting
  import opened Clustering

  // The normalized values a listing is compared by; a price that is not a number is None.
  datatype Listing = Listing(id: Id, addresses: seq<string>, units: seq<string>, prices: seq<Option<real>>)

  datatype Config = Config(
    autoMerge: real,
    review: real,
    priceTolerance: real,
    weights: map<string, real>,
    overrides: map<string, real>,
    pairKey: (Id, Id) -> string)  // the ids joined by a separator, so two pairs may share a key

  datatype PairCandidate = PairCandidate(left: Id, right: Id, keys: set<string>)

  ghost predicate DistinctIds(listings: seq<Listing>) {
    forall i, j :: 0 <= i < j < |listings| ==> listings[i].id != listings[j].id
  }

  // ---------- the keys ----------

  function KeysOf(l: Listing): set<string> {
    (set a | a in l.addresses :: "addr:" + a) +
    (set a, u | a in l.addresses && u in l.units :: "addr_unit:" + a + "|" + u)
  }

  lemma SharedAddressSharesKey(l: Listing, r: Listing, a: string)
    requires a in l.addresses && a in r.addresses
    ensures "addr:" + a in KeysOf(l) * KeysOf(r)
  {
  }

  // Some listing among the first n has this id and this key.
  ghost predicate Has(listings: seq<Listing>, n: nat, id: Id, key: string)
    requires n <= |listings|
  {
    exists i :: 0 <= i < n && listings[i].id == id && key in KeysOf(listings[i])
  }

  // ---------- the index ----------

  // Indexed so far: the first n listings, and listing n under the keys in done.
  ghost predicate Indexed(listings: seq<Listing>, n: nat, done: set<string>, id: Id, key: string)
    requires n <= |listings|
  {
    Has(listings, n, id, key) || (n < |listings| && key in done && id == listings[n].id)
  }

  ghost predicate IsIndex(membership: map<string, seq<Id>>, listings: seq<Listing>, n: nat, done: set<string>)
    requires n <= |listings|
  {
    && (forall k, id :: Indexed(listings, n, done, id, k) <==> k in membership && id in membership[k])
    && (forall k :: k in membership ==> NoDuplicates(membership[k]))
  }

  lemma IndexOneMore(m: map<string, seq<Id>>, listings: seq<Listing>, n: nat, done: set<string>, key: string)
    requires DistinctIds(listings) && n < |listings| && IsIndex(m, listings, n, done) && key !in done
    ensures var ids := if key in m then m[key] else [];
            IsIndex(m[key := ids + [listings[n].id]], listings, n, done + {key})
  {
    var ids, id := if key in m then m[key] else [], listings[n].id;
    assert !Indexed(listings, n, done, id, key);
    assert id !in ids;
    assert multiset(ids + [id]) == multiset(ids) + multiset{id};
    forall k, x ensures Indexed(listings, n, done + {key}, x, k) <==>
                        k in m[key := ids + [id]] && x in m[key := ids + [id]][k] {
      assert Indexed(listings, n, done, x, k) <==> k in m && x in m[k];
    }
  }

  lemma HasOneMore(listings: seq<Listing>, n: nat, id: Id, k: string)
    requires n < |listings|
    ensures Has(listings, n + 1, id, k) <==>
            Has(listings, n, id, k) || (listings[n].id == id && k in KeysOf(listings[n]))
  {
    hide KeysOf;
    if Has(listings, n + 1, id, k) {
      var i :| 0 <= i < n + 1 && listings[i].id == id && k in KeysOf(listings[i]);
      assert i < n ==> Has(listings, n, id, k);
    }
    if Has(listings, n, id, k) {
      var i :| 0 <= i < n && listings[i].id == id && k in KeysOf(listings[i]);
      assert i < n + 1;
    }
  }

  lemma IndexNextListing(m: map<string, seq<Id>>, listings: seq<Listing>, n: nat)
    requires n < |listings| && IsIndex(m, listings, n, KeysOf(listings[n]))
    ensures IsIndex(m, listings, n + 1, {})
  {
    forall k, id {:trigger Indexed(listings, n + 1, {}, id, k)}
      ensures Indexed(listings, n + 1, {}, id, k) <==> k in m && id in m[k]
    {
      HasOneMore(listings, n, id, k);
      assert Indexed(listings, n, KeysOf(listings[n]), id, k) <==> k in m && id in m[k];
    }
  }

  // Adds listing n under each of its keys; the order of the keys does not matter.
  method IndexListing(listings: seq<Listing>, n: nat, before: map<string, seq<Id>>)
    returns (membership: map<string, seq<Id>>)
    requires DistinctIds(listings) && n < |listings| && IsIndex(before, listings, n, {})
    ensures IsIndex(membership, listings, n + 1, {})
  {
    hide IsIndex, KeysOf, DistinctIds;
    membership := before;
    var todo := KeysOf(listings[n]);
    ghost var done := {};
    while todo != {}
      invariant done + todo == KeysOf(listings[n]) && done !! todo
      invariant IsIndex(membership, listings, n, done)
      decreases |todo|
    {
      var key :| key in todo;
      IndexOneMore(membership, listings, n, done, key);
      var ids := if key in membership then membership[key] else [];
      membership := membership[key := ids + [listings[n].id]];
      todo, done := todo - {key}, done + {key};
    }
    IndexNextListing(membership, listings, n);
  }

  method Index(listings: seq<Listing>) returns (membership: map<string, seq<Id>>)
    requires DistinctIds(listings)
    ensures IsIndex(membership, listings, |listings|, {})
    ensures forall k :: k in membership ==> Ascending(membership[k])
  {
    membership := map[];
    for n := 0 to |listings|
      invariant IsIndex(membership, listings, n, {})
    {
      membership := IndexListing(listings, n, membership);
    }
    ghost var unsorted := membership;
    membership := SortMembers(membership);
    SortedIndex(unsorted, membership, listings);
  }

  lemma SortedIndex(unsorted: map<string, seq<Id>>, m: map<string, seq<Id>>, listings: seq<Listing>)
    requires IsIndex(unsorted, listings, |listings|, {}) && m.Keys == unsorted.Keys
    requires forall k :: k in m ==> multiset(m[k]) == multiset(unsorted[k])
    ensures IsIndex(m, listings, |listings|, {})
  {
    forall k, id ensures Indexed(listings, |listings|, {}, id, k) <==> k in m && id in m[k] {
      if k in m { assert id in multiset(m[k]) <==> id in multiset(unsorted[k]); }
    }
  }

  // ---------- the pairs ----------

  function KeysAt(pairs: map<Edge, set<string>>, x: Edge): set<string> {
    if x in pairs then pairs[x] else {}
  }

  // Both ids are listed under k.
  ghost predicate Together(m: map<string, seq<Id>>, k: string, x: Edge) {
    k in m && x.a < x.b && x.a in m[k] && x.b in m[k]
  }

  // The pairs found so far: all those under the keys in done, and some under key.
  ghost predicate Pairs(pairs: map<Edge, set<string>>, m: map<string, seq<Id>>, done: set<string>, key: string,
                        some: Edges) {
    && (forall x :: x in pairs ==> pairs[x] != {})
    && (forall x, k :: k in KeysAt(pairs, x) <==> (k in done && Together(m, k, x)) || (k == key && x in some))
  }

  method PairUp(m: map<string, seq<Id>>) returns (pairs: map<Edge, set<string>>)
    requires forall k :: k in m ==> Ascending(m[k])
    ensures forall x :: x in pairs ==> pairs[x] != {}
    ensures forall x, k :: k in KeysAt(pairs, x) <==> Together(m, k, x)
  {
    pairs := map[];
    var todo := m.Keys;
    ghost var done := {};
    while todo != {}
      invariant done + todo == m.Keys && done !! todo
      invariant Pairs(pairs, m, done, "", {})
      decreases |todo|
    {
      var key :| key in todo;
      pairs := PairUpUnder(m, key, pairs, done);
      todo, done := todo - {key}, done + {key};
    }
  }

  // x.a comes before position i, or at i with x.b before position j.
  ghost predicate Reached(ids: seq<Id>, i: nat, j: nat, x: Edge)
    requires i <= |ids| && j <= |ids|
  {
    x.a < x.b && x.b in ids && (x.a in ids[..i] || (i < |ids| && x.a == ids[i] && x.b in ids[..j]))
  }

  method PairUpUnder(m: map<string, seq<Id>>, key: string, before: map<Edge, set<string>>, ghost done: set<string>)
    returns (pairs: map<Edge, set<string>>)
    requires key in m && key !in done && Ascending(m[key]) && Pairs(before, m, done, "", {})
    ensures Pairs(pairs, m, done + {key}, "", {})
  {
    pairs := before;
    var ids := m[key];
    ghost var some: Edges := {};
    for i := 0 to |ids|
      invariant Pairs(pairs, m, done, key, some)
      invariant forall x :: x in some <==> Reached(ids, i, 0, x)
    {
      for j := i + 1 to |ids|
        invariant Pairs(pairs, m, done, key, some)
        invariant forall x :: x in some <==> Reached(ids, i, j, x)
      {
        hide Pairs, Reached, Ascending;
        var x := Edge(ids[i], ids[j]);
        PairsOneMore(pairs, m, done, key, some, x);
        ReachOneMore(ids, i, j, some);
        pairs := pairs[x := KeysAt(pairs, x) + {key}];
        some := some + {x};
      }
      ReachNextRow(ids, i);
    }
    PairsNextKey(pairs, m, done, key, some);
  }

  lemma PairsOneMore(pairs: map<Edge, set<string>>, m: map<string, seq<Id>>, done: set<string>, key: string,
                     some: Edges, x: Edge)
    requires Pairs(pairs, m, done, key, some) && key !in done
    ensures Pairs(pairs[x := KeysAt(pairs, x) + {key}], m, done, key, some + {x})
  {
    var after := pairs[x := KeysAt(pairs, x) + {key}];
    forall y, k ensures k in KeysAt(after, y) <==> (k in done && Together(m, k, y)) || (k == key && y in some + {x}) {
      assert k in KeysAt(pairs, y) <==> (k in done && Together(m, k, y)) || (k == key && y in some);
    }
    assert key in after[x];
  }

  lemma ReachOneMore(ids: seq<Id>, i: nat, j: nat, some: Edges)
    requires i < j < |ids| && Ascending(ids) && forall x :: x in some <==> Reached(ids, i, j, x)
    ensures forall x :: x in some + {Edge(ids[i], ids[j])} <==> Reached(ids, i, j + 1, x)
  {
    assert ids[..j + 1] == ids[..j] + [ids[j]];
  }

  lemma ReachNextRow(ids: seq<Id>, i: nat)
    requires i < |ids| && Ascending(ids)
    ensures forall x :: Reached(ids, i, |ids|, x) <==> Reached(ids, i + 1, 0, x)
    ensures forall x :: Reached(ids, i, 0, x) <==> Reached(ids, i, i + 1, x)
  {
    assert ids[..i + 1] == ids[..i] + [ids[i]];
    assert ids[..|ids|] == ids;
  }

  lemma PairsNextKey(pairs: map<Edge, set<string>>, m: map<string, seq<Id>>, done: set<string>, key: string,
                     some: Edges)
    requires key in m && Pairs(pairs, m, done, key, some)
    requires forall x :: x in some <==> Reached(m[key], |m[key]|, 0, x)
    ensures Pairs(pairs, m, done + {key}, "", {})
  {
    var ids := m[key];
    assert ids[..|ids|] == ids;
    forall x, k ensures k in KeysAt(pairs, x) <==> k in done + {key} && Together(m, k, x) {
      assert x in some <==> Together(m, key, x);
    }
  }

  // ---------- the candidates ----------

  predicate Before(a: Edge, b: Edge) { a.a < b.a || (a.a == b.a && a.b < b.b) }

  predicate EdgeLe(a: Edge, b: Edge) { a == b || Before(a, b) }

  ghost predicate InOrder(pairs: seq<PairCandidate>) {
    forall i, j :: 0 <= i < j < |pairs| ==>
      Before(Edge(pairs[i].left, pairs[i].right), Edge(pairs[j].left, pairs[j].right))
  }

  // Exactly the pairs that share a key, each once, in order, with exactly the keys it shares.
  ghost predicate IsBlocking(pairs: seq<PairCandidate>, listings: seq<Listing>) {
    var n := |listings|;
    && InOrder(pairs)
    && (forall c :: c in pairs ==> c.left < c.right && c.keys != {})
    && (forall c, k :: c in pairs ==> (k in c.keys <==> Has(listings, n, c.left, k) && Has(listings, n, c.right, k)))
    && (forall l, r, k :: l < r && Has(listings, n, l, k) && Has(listings, n, r, k) ==>
          exists c :: c in pairs && c.left == l && c.right == r)
  }

  method Block(listings: seq<Listing>) returns (candidates: seq<PairCandidate>)
    requires DistinctIds(listings)
    ensures IsBlocking(candidates, listings)
    ensures forall i, j :: 0 <= i < |listings| && 0 <= j < |listings| && listings[i].id < listings[j].id ==>
              (Listed(candidates, listings[i].id, listings[j].id) <==> Alike(listings[i], listings[j]))
  {
    var membership := Index(listings);
    var pairs := PairUp(membership);
    var edges := SortedEdges(pairs.Keys);
    candidates := [];
    for i := 0 to |edges|
      invariant |candidates| == i
      invariant forall j :: 0 <= j < i ==> candidates[j] == PairCandidate(edges[j].a, edges[j].b, pairs[edges[j]])
    {
      candidates := candidates + [PairCandidate(edges[i].a, edges[i].b, pairs[edges[i]])];
    }
    CandidatesBlock(listings, membership, pairs, edges, candidates);
    forall i, j | 0 <= i < |listings| && 0 <= j < |listings| && listings[i].id < listings[j].id
      ensures Listed(candidates, listings[i].id, listings[j].id) <==> Alike(listings[i], listings[j])
    {
      BlockingMeans(listings, candidates, i, j);
    }
  }

  ghost predicate Listed(candidates: seq<PairCandidate>, left: Id, right: Id) {
    exists c :: c in candidates && c.left == left && c.right == right
  }

  lemma BlockingMeans(listings: seq<Listing>, candidates: seq<PairCandidate>, i: nat, j: nat)
    requires DistinctIds(listings) && IsBlocking(candidates, listings)
    requires i < |listings| && j < |listings| && listings[i].id < listings[j].id
    ensures Listed(candidates, listings[i].id, listings[j].id) <==> Alike(listings[i], listings[j])
  {
    hide KeysOf, Alike;
    var l, r, n := listings[i], listings[j], |listings|;
    KeysMeetIff(l, r);
    if Listed(candidates, l.id, r.id) {
      var c :| c in candidates && c.left == l.id && c.right == r.id;
      var k :| k in c.keys;
      KeyAt(listings, l.id, k, i);
      KeyAt(listings, r.id, k, j);
      assert k in KeysOf(l) * KeysOf(r);
    }
    if KeysOf(l) * KeysOf(r) != {} {
      var k :| k in KeysOf(l) * KeysOf(r);
      assert Has(listings, n, l.id, k) && Has(listings, n, r.id, k);
    }
  }

  method SortedEdges(todo: set<Edge>) returns (edges: seq<Edge>)
    ensures forall x :: x in edges <==> x in todo
    ensures forall i, j :: 0 <= i < j < |edges| ==> Before(edges[i], edges[j])
  {
    var unsorted: seq<Edge> := [];
    var left := todo;
    while left != {}
      invariant left <= todo && NoDuplicates(unsorted)
      invariant forall x :: x in unsorted <==> x in todo - left
      decreases |left|
    {
      var x :| x in left;
      assert x !in unsorted;
      assert multiset(unsorted + [x]) == multiset(unsorted) + multiset{x};
      unsorted := unsorted + [x];
      left := left - {x};
    }
    assert todo - left == todo;
    edges := Sort(unsorted, EdgeLe);
    SortedEdgesAscend(unsorted);
  }

  lemma SortedEdgesAscend(unsorted: seq<Edge>)
    requires NoDuplicates(unsorted)
    ensures var edges := Sort(unsorted, EdgeLe);
            && (forall x :: x in edges <==> x in unsorted)
            && (forall i, j :: 0 <= i < j < |edges| ==> Before(edges[i], edges[j]))
  {
    var edges := Sort(unsorted, EdgeLe);
    SortSorts(unsorted, EdgeLe);
    forall x ensures x in edges <==> x in unsorted {
      assert x in multiset(edges) <==> x in multiset(unsorted);
    }
    forall i, j | 0 <= i < j < |edges| ensures Before(edges[i], edges[j]) {
      assert EdgeLe(edges[i], edges[j]);
      if edges[i] == edges[j] {
        SeenTwice(edges, i, j);
        assert false;
      }
    }
  }

  lemma CandidatesBlock(listings: seq<Listing>, m: map<string, seq<Id>>, pairs: map<Edge, set<string>>,
                        edges: seq<Edge>, candidates: seq<PairCandidate>)
    requires IsIndex(m, listings, |listings|, {})
    requires forall x :: x in pairs ==> pairs[x] != {}
    requires forall x, k :: k in KeysAt(pairs, x) <==> Together(m, k, x)
    requires forall x :: x in edges <==> x in pairs
    requires forall i, j :: 0 <= i < j < |edges| ==> Before(edges[i], edges[j])
    requires |candidates| == |edges|
    requires forall j :: 0 <= j < |edges| ==>
               edges[j] in pairs && candidates[j] == PairCandidate(edges[j].a, edges[j].b, pairs[edges[j]])
    ensures IsBlocking(candidates, listings)
  {
    hide IsIndex, Together, KeysAt, Has;
    forall x, k ensures k in KeysAt(pairs, x) <==> Shared(listings, x, k) {
      TogetherIsShared(listings, m, x, k);
    }
    forall c | c in candidates
      ensures c.left < c.right && c.keys != {}
      ensures forall k :: k in c.keys <==> Has(listings, |listings|, c.left, k) && Has(listings, |listings|, c.right, k)
    {
      var j :| 0 <= j < |candidates| && candidates[j] == c;
      PairShares(listings, pairs, edges[j]);
    }
    forall l, r, k | l < r && Has(listings, |listings|, l, k) && Has(listings, |listings|, r, k)
      ensures exists c :: c in candidates && c.left == l && c.right == r
    {
      assert Shared(listings, Edge(l, r), k);
      KeysAtPairs(pairs, Edge(l, r), k);
      var j :| 0 <= j < |edges| && edges[j] == Edge(l, r);
      assert candidates[j] in candidates;
    }
  }

  // Two listings, in order, that have the key.
  ghost predicate Shared(listings: seq<Listing>, x: Edge, k: string) {
    x.a < x.b && Has(listings, |listings|, x.a, k) && Has(listings, |listings|, x.b, k)
  }

  lemma TogetherIsShared(listings: seq<Listing>, m: map<string, seq<Id>>, x: Edge, k: string)
    requires IsIndex(m, listings, |listings|, {})
    ensures Together(m, k, x) <==> Shared(listings, x, k)
  {
    hide Has;
    assert Indexed(listings, |listings|, {}, x.a, k) <==> k in m && x.a in m[k];
    assert Indexed(listings, |listings|, {}, x.b, k) <==> k in m && x.b in m[k];
  }

  lemma KeysAtPairs(pairs: map<Edge, set<string>>, x: Edge, k: string)
    ensures k in KeysAt(pairs, x) <==> x in pairs && k in pairs[x]
  {
  }

  lemma PairShares(listings: seq<Listing>, pairs: map<Edge, set<string>>, x: Edge)
    requires x in pairs && pairs[x] != {} && forall k :: k in KeysAt(pairs, x) <==> Shared(listings, x, k)
    ensures x.a < x.b
    ensures forall k :: k in pairs[x] <==> Has(listings, |listings|, x.a, k) && Has(listings, |listings|, x.b, k)
  {
    hide Has, KeysAt;
    var k0 :| k0 in pairs[x];
    KeysAtPairs(pairs, x, k0);
    forall k ensures k in pairs[x] <==> Has(listings, |listings|, x.a, k) && Has(listings, |listings|, x.b, k) {
      KeysAtPairs(pairs, x, k);
    }
  }

  // ---------- scoring ----------

  datatype Features = Features(address: Option<real>, unit: Option<real>, price: Option<real>)

  function FeatureMatch(left: seq<string>, right: seq<string>): Option<real> {
    if left == [] || right == [] then None
    else if exists v :: v in left && v in right then Some(1.0) else Some(0.0)
  }

  function Numbers(prices: seq<Option<real>>): set<real> { set p | p in prices && p.Some? :: p.value }

  predicate WithinTolerance(l: real, r: real, tolerance: real) { -tolerance <= l - r <= tolerance }

  // The smallest difference is within the tolerance exactly when some difference is.
  function PriceMatch(left: seq<Option<real>>, right: seq<Option<real>>, tolerance: real): Option<real> {
    var ls, rs := Numbers(left), Numbers(right);
    if ls == {} || rs == {} then None
    else if exists l, r :: l in ls && r in rs && WithinTolerance(l, r, tolerance) then Some(1.0) else Some(0.0)
  }

  function FeaturesOf(config: Config, l: Listing, r: Listing): Features {
    Features(FeatureMatch(l.addresses, r.addresses), FeatureMatch(l.units, r.units),
             PriceMatch(l.prices, r.prices, config.priceTolerance))
  }

  function WeightOf(config: Config, name: string): real {
    if name in config.weights then config.weights[name] else 0.0
  }

  function Weight(config: Config, name: string, feature: Option<real>): real {
    if feature == None then 0.0 else WeightOf(config, name)
  }

  function Value(feature: Option<real>): real { if feature == None then 0.0 else feature.value }

  function ScoreFeatures(config: Config, f: Features): real {
    var a, u := Weight(config, "address_match", f.address), Weight(config, "unit_match", f.unit);
    var p := Weight(config, "price_match", f.price);
    var total := a + u + p;
    if total == 0.0 then 0.0 else (a * Value(f.address) + u * Value(f.unit) + p * Value(f.price)) / total
  }

  function Score(config: Config, l: Listing, r: Listing): real {
    var x := if l.id <= r.id then config.pairKey(l.id, r.id) else config.pairKey(r.id, l.id);
    if x in config.overrides then config.overrides[x] else ScoreFeatures(config, FeaturesOf(config, l, r))
  }

  function BandForScore(config: Config, score: real): Band {
    if score >= config.autoMerge then AutoMerge else if score >= config.review then Review else AutoSeparate
  }

  function Decision(config: Config, l: Listing, r: Listing): PairDecision {
    PairDecision(l.id, r.id, Score(config, l, r), BandForScore(config, Score(config, l, r)))
  }

  // ---------- the same in the listings' own values ----------

  ghost predicate Common(a: seq<string>, b: seq<string>) { exists v :: v in a && v in b }

  // The listings share an address, or an address and a unit that read alike once they are joined.
  ghost predicate Alike(l: Listing, r: Listing) {
    || Common(l.addresses, r.addresses)
    || exists a, u, b, v :: a in l.addresses && u in l.units && b in r.addresses && v in r.units
                            && a + "|" + u == b + "|" + v
  }

  lemma KeysMeetIff(l: Listing, r: Listing)
    ensures KeysOf(l) * KeysOf(r) != {} <==> Alike(l, r)
  {
    if Common(l.addresses, r.addresses) {
      var a :| a in l.addresses && a in r.addresses;
      SharedAddressSharesKey(l, r, a);
    }
    if a, u, b, v :|
      a in l.addresses && u in l.units && b in r.addresses && v in r.units && a + "|" + u == b + "|" + v {
      JoinedKey(a, u);
      JoinedKey(b, v);
      assert "addr_unit:" + a + "|" + u in KeysOf(l) * KeysOf(r);
    }
    if k :| k in KeysOf(l) * KeysOf(r) { SharedKeyIsAlike(l, r, k); }
  }

  lemma JoinedKey(a: string, u: string)
    ensures "addr_unit:" + a + "|" + u == "addr_unit:" + (a + "|" + u)
  {
  }

  lemma SharedKeyIsAlike(l: Listing, r: Listing, k: string)
    requires k in KeysOf(l) && k in KeysOf(r)
    ensures Alike(l, r)
  {
    if a :| a in l.addresses && k == "addr:" + a {
      AddressKey(r, k, a);
    } else {
      var a, u :| a in l.addresses && u in l.units && k == "addr_unit:" + a + "|" + u;
      UnitKey(r, k, a, u);
    }
  }

  lemma AddressKey(r: Listing, k: string, a: string)
    requires k in KeysOf(r) && k == "addr:" + a
    ensures a in r.addresses
  {
    assert k[4] == ':' && k[5..] == a;
    forall b, v ensures "addr_unit:" + b + "|" + v != k { assert ("addr_unit:" + b + "|" + v)[4] == '_'; }
    var b :| b in r.addresses && k == "addr:" + b;
    assert k[5..] == b;
  }

  lemma UnitKey(r: Listing, k: string, a: string, u: string)
    requires k in KeysOf(r) && k == "addr_unit:" + a + "|" + u
    ensures exists b, v :: b in r.addresses && v in r.units && a + "|" + u == b + "|" + v
  {
    JoinedKey(a, u);
    assert k[4] == '_' && k[10..] == a + "|" + u;
    forall b ensures "addr:" + b != k { assert ("addr:" + b)[4] == ':'; }
    var b, v :| b in r.addresses && v in r.units && k == "addr_unit:" + b + "|" + v;
    JoinedKey(b, v);
    assert k[10..] == b + "|" + v;
  }

  ghost predicate Priced(l: Listing) { exists x :: Some(x) in l.prices }

  ghost predicate ClosePrices(tolerance: real, l: Listing, r: Listing) {
    exists x: real, y: real :: Some(x) in l.prices && Some(y) in r.prices && x - y <= tolerance && y - x <= tolerance
  }

  // The weight of what both listings state, and of what matches.
  ghost function Stated(config: Config, l: Listing, r: Listing): real {
    (if l.addresses != [] && r.addresses != [] && "address_match" in config.weights
     then config.weights["address_match"] else 0.0)
    + (if l.units != [] && r.units != [] && "unit_match" in config.weights then config.weights["unit_match"] else 0.0)
    + (if Priced(l) && Priced(r) && "price_match" in config.weights then config.weights["price_match"] else 0.0)
  }

  ghost function Matched(config: Config, l: Listing, r: Listing): real {
    (if Common(l.addresses, r.addresses) && "address_match" in config.weights
     then config.weights["address_match"] else 0.0)
    + (if Common(l.units, r.units) && "unit_match" in config.weights then config.weights["unit_match"] else 0.0)
    + (if ClosePrices(config.priceTolerance, l, r) && "price_match" in config.weights
       then config.weights["price_match"] else 0.0)
  }

  // The score is the share that matches, and 0 of nothing.
  ghost predicate ShareOf(score: real, matched: real, stated: real) {
    if stated == 0.0 then score == 0.0 else score * stated == matched
  }

  // An override decides; otherwise the share of the stated weight that matches.
  ghost predicate ScoresAs(config: Config, l: Listing, r: Listing, score: real) {
    var key := if l.id <= r.id then config.pairKey(l.id, r.id) else config.pairKey(r.id, l.id);
    if key in config.overrides then score == config.overrides[key]
    else ShareOf(score, Matched(config, l, r), Stated(config, l, r))
  }

  lemma MatchMeans(left: seq<string>, right: seq<string>)
    ensures FeatureMatch(left, right) == None <==> left == [] || right == []
    ensures var f := FeatureMatch(left, right);
            && (f.Some? ==> f.value == if Common(left, right) then 1.0 else 0.0)
            && (f == None ==> !Common(left, right))
  {
  }

  lemma PriceMeans(l: Listing, r: Listing, tolerance: real)
    ensures var f := PriceMatch(l.prices, r.prices, tolerance);
            && (f.Some? <==> Priced(l) && Priced(r))
            && (f.Some? ==> f.value == if ClosePrices(tolerance, l, r) then 1.0 else 0.0)
            && (f == None ==> !ClosePrices(tolerance, l, r))
  {
    NumbersMean(l);
    NumbersMean(r);
    var ls, rs := Numbers(l.prices), Numbers(r.prices);
    if ClosePrices(tolerance, l, r) {
      var x: real, y: real :| Some(x) in l.prices && Some(y) in r.prices && x - y <= tolerance && y - x <= tolerance;
      assert x in ls && y in rs && WithinTolerance(x, y, tolerance);
    }
    if x, y :| x in ls && y in rs && WithinTolerance(x, y, tolerance) {
      assert Some(x) in l.prices && Some(y) in r.prices && x - y <= tolerance && y - x <= tolerance;
    }
  }

  lemma NumbersMean(l: Listing)
    ensures forall x :: x in Numbers(l.prices) <==> Some(x) in l.prices
    ensures Numbers(l.prices) != {} <==> Priced(l)
  {
    var numbers := Numbers(l.prices);
    forall x | Some(x) in l.prices ensures x in numbers { assert Some(x).value == x; }
    if !Priced(l) {
      forall x ensures x !in numbers {}
      assert numbers == {};
    }
  }

  // A feature both listings state is a match or not; one that either leaves out is neither.
  function Feature(stated: bool, matched: bool): Option<real> {
    if !stated then None else if matched then Some(1.0) else Some(0.0)
  }

  lemma FeaturesMean(config: Config, l: Listing, r: Listing)
    ensures var f := FeaturesOf(config, l, r);
            && f.address == Feature(l.addresses != [] && r.addresses != [], Common(l.addresses, r.addresses))
            && f.unit == Feature(l.units != [] && r.units != [], Common(l.units, r.units))
            && f.price == Feature(Priced(l) && Priced(r), ClosePrices(config.priceTolerance, l, r))
    ensures Common(l.addresses, r.addresses) ==> l.addresses != [] && r.addresses != []
    ensures Common(l.units, r.units) ==> l.units != [] && r.units != []
    ensures ClosePrices(config.priceTolerance, l, r) ==> Priced(l) && Priced(r)
  {
    hide PriceMatch;
    MatchMeans(l.addresses, r.addresses);
    MatchMeans(l.units, r.units);
    PriceMeans(l, r, config.priceTolerance);
  }

  lemma SharesMean(config: Config, l: Listing, r: Listing)
    ensures ScoreFeatures(config, FeaturesOf(config, l, r)) ==
            if Stated(config, l, r) == 0.0 then 0.0 else Matched(config, l, r) / Stated(config, l, r)
  {
    hide FeaturesOf, Common, Priced, ClosePrices;
    var f := FeaturesOf(config, l, r);
    FeaturesMean(config, l, r);
    Times(Weight(config, "address_match", f.address), l.addresses != [] && r.addresses != [],
          Common(l.addresses, r.addresses));
    Times(Weight(config, "unit_match", f.unit), l.units != [] && r.units != [], Common(l.units, r.units));
    Times(Weight(config, "price_match", f.price), Priced(l) && Priced(r), ClosePrices(config.priceTolerance, l, r));
  }

  lemma Times(w: real, stated: bool, matched: bool)
    ensures w * Value(Feature(stated, matched)) == if stated && matched then w else 0.0
  {
  }

  lemma ScoreMeans(config: Config, l: Listing, r: Listing)
    ensures ScoresAs(config, l, r, Score(config, l, r))
    ensures forall score :: ScoresAs(config, l, r, score) ==> score == Score(config, l, r)
  {
    hide ScoreFeatures, FeaturesOf, Stated, Matched, ShareOf;
    var m, s := Matched(config, l, r), Stated(config, l, r);
    SharesMean(config, l, r);
    forall score ensures ShareOf(score, m, s) <==> score == if s == 0.0 then 0.0 else m / s { ShareIff(score, m, s); }
  }

  lemma ShareIff(score: real, matched: real, stated: real)
    ensures ShareOf(score, matched, stated) <==> score == if stated == 0.0 then 0.0 else matched / stated
  {
    QuotientIff(score, matched, stated);
  }

  lemma QuotientIff(score: real, n: real, total: real)
    ensures total != 0.0 ==> (score * total == n <==> score == n / total)
  {
    if total != 0.0 {
      assert (n / total) * total == n;
      if score * total == n { assert (score - n / total) * total == 0.0; }
    }
  }

  // Merged from the upper threshold on, reviewed between the two, and separate below both.
  ghost predicate BandedAs(config: Config, d: PairDecision) {
    && (d.band == AutoMerge <==> d.score >= config.autoMerge)
    && (d.band == Review <==> config.review <= d.score < config.autoMerge)
    && (d.band == AutoSeparate <==> d.score < config.review && d.score < config.autoMerge)
  }

  lemma DecisionMeans(config: Config, l: Listing, r: Listing)
    ensures var d := Decision(config, l, r);
            d.left == l.id && d.right == r.id && ScoresAs(config, l, r, d.score) && BandedAs(config, d)
  {
    hide Score, ScoresAs;
    ScoreMeans(config, l, r);
  }

  // Two listings, in the order of their ids, that are alike and score s.
  ghost predicate AlikeAt(config: Config, listings: seq<Listing>, i: int, j: int, x: Edge, s: real) {
    && 0 <= i < |listings| && 0 <= j < |listings| && x.a < x.b
    && listings[i].id == x.a && listings[j].id == x.b
    && Alike(listings[i], listings[j]) && ScoresAs(config, listings[i], listings[j], s)
  }

  // ---------- the pipeline ----------

  ghost predicate Merges(config: Config, listings: seq<Listing>, i: int, j: int) {
    && 0 <= i < |listings| && 0 <= j < |listings| && listings[i].id < listings[j].id
    && Decision(config, listings[i], listings[j]).band == AutoMerge
  }

  // The merges when every pair is scored, and when only pairs with a common key are.
  ghost function AllMerges(config: Config, listings: seq<Listing>): Edges {
    set i, j | 0 <= i < |listings| && 0 <= j < |listings| && Merges(config, listings, i, j) ::
      Edge(listings[i].id, listings[j].id)
  }

  ghost function CandidateMerges(config: Config, listings: seq<Listing>): Edges {
    set i, j | 0 <= i < |listings| && 0 <= j < |listings| && Merges(config, listings, i, j) &&
               KeysOf(listings[i]) * KeysOf(listings[j]) != {} :: Edge(listings[i].id, listings[j].id)
  }

  const DEFAULT_WEIGHTS := map["address_match" := 0.6, "unit_match" := 0.3, "price_match" := 0.1]

  ghost predicate Addressed(listings: seq<Listing>) {
    forall l :: l in listings ==> l.addresses != []
  }

  // An address counts, nothing counts against a match, and nobody overrides a score. The default weights are such.
  predicate Weighted(config: Config) {
    && WeightOf(config, "address_match") > 0.0
    && WeightOf(config, "unit_match") >= 0.0 && WeightOf(config, "price_match") >= 0.0
    && config.overrides == map[]
  }

  // What can match without an address: units, and prices unless the tolerance is negative.
  function OtherWeight(config: Config): real {
    WeightOf(config, "unit_match") + if config.priceTolerance >= 0.0 then WeightOf(config, "price_match") else 0.0
  }

  // The most that two addressed listings without a common key can score.
  function UnsharedBound(config: Config): real
    requires Weighted(config)
  {
    OtherWeight(config) / (WeightOf(config, "address_match") + OtherWeight(config))
  }

  lemma DefaultBound(config: Config)
    requires config.weights == DEFAULT_WEIGHTS && config.overrides == map[]
    ensures Weighted(config) && UnsharedBound(config) == if config.priceTolerance >= 0.0 then 0.4 else 1.0 / 3.0
  {
  }

  lemma NoSharedKeyScoresLow(config: Config, l: Listing, r: Listing)
    requires Weighted(config) && l.addresses != [] && r.addresses != [] && KeysOf(l) * KeysOf(r) == {}
    ensures Score(config, l, r) <= UnsharedBound(config)
  {
    var f := FeaturesOf(config, l, r);
    forall a | a in l.addresses && a in r.addresses ensures false {
      SharedAddressSharesKey(l, r, a);
    }
    assert f.address == Some(0.0);
    LowScore(config, f);
  }

  predicate IsMatch(f: Option<real>) { f == None || f == Some(0.0) || f == Some(1.0) }

  lemma LowScore(config: Config, f: Features)
    requires Weighted(config) && f.address == Some(0.0) && IsMatch(f.unit) && IsMatch(f.price)
    requires f.price == Some(1.0) ==> config.priceTolerance >= 0.0
    ensures ScoreFeatures(config, f) <= UnsharedBound(config)
  {
    var a := WeightOf(config, "address_match");
    var u, p := Weight(config, "unit_match", f.unit), Weight(config, "price_match", f.price);
    var n := u * Value(f.unit) + p * Value(f.price);
    assert u * Value(f.unit) == if f.unit == Some(1.0) then u else 0.0;
    assert p * Value(f.price) == if f.price == Some(1.0) then p else 0.0;
    RatioGrows(n, a + u + p, OtherWeight(config), a);
    assert a * 0.0 + u * Value(f.unit) + p * Value(f.price) == n;
  }

  lemma RatioGrows(n: real, total: real, x: real, a: real)
    requires 0.0 <= n <= x && 0.0 < a && a + n <= total
    ensures n / total <= x / (a + x)
  {
    assert n * (a + x) == n * a + n * x;
    assert n * a <= x * a;
    assert x * (a + n) <= x * total;
    DivisionKeepsOrder(n, total, x, a + x);
  }

  lemma DivisionKeepsOrder(n: real, m: real, x: real, b: real)
    requires m > 0.0 && b > 0.0 && n * b <= x * m
    ensures n / m <= x / b
  {
    var d := x / b - n / m;
    assert (x / b) * b == x && (n / m) * m == n;
    assert (x / b) * (b * m) == x * m && (n / m) * (b * m) == n * b;
    assert d * (b * m) == x * m - n * b;
    NotNegative(d, b * m);
  }

  lemma NotNegative(d: real, m: real)
    requires m > 0.0 && d * m >= 0.0
    ensures d >= 0.0
  {
  }

  lemma NoScoreAboveOne(config: Config, l: Listing, r: Listing)
    requires Weighted(config)
    ensures Score(config, l, r) <= 1.0
    ensures OtherWeight(config) == 0.0 && (l.addresses == [] || r.addresses == []) ==> Score(config, l, r) <= 0.0
  {
    var f := FeaturesOf(config, l, r);
    var a, u := Weight(config, "address_match", f.address), Weight(config, "unit_match", f.unit);
    var p := Weight(config, "price_match", f.price);
    assert IsMatch(f.address) && IsMatch(f.unit) && IsMatch(f.price);
    assert f.price == Some(1.0) ==> config.priceTolerance >= 0.0;
    assert a * Value(f.address) == if f.address == Some(1.0) then a else 0.0;
    assert u * Value(f.unit) == if f.unit == Some(1.0) then u else 0.0;
    assert p * Value(f.price) == if f.price == Some(1.0) then p else 0.0;
    AtMostOne(a * Value(f.address) + u * Value(f.unit) + p * Value(f.price), a + u + p);
  }

  lemma AtMostOne(n: real, total: real)
    requires 0.0 <= n <= total
    ensures total != 0.0 ==> n / total <= 1.0 && (n == 0.0 ==> n / total == 0.0)
  {
  }

  // Scoring only the candidate pairs loses no merge, whatever the listings, as long as each has an address.
  ghost predicate Lossless(config: Config) {
    forall listings :: DistinctIds(listings) && Addressed(listings) ==>
      CandidateMerges(config, listings) == AllMerges(config, listings)
  }

  // The same without the condition on addresses.
  ghost predicate LosslessWithoutAddresses(config: Config) {
    forall listings :: DistinctIds(listings) ==> CandidateMerges(config, listings) == AllMerges(config, listings)
  }

  // The clusters are those of scoring every pair.
  ghost predicate KeepsClusters(config: Config, idOf: seq<Id> -> Id) {
    forall listings, run, brute ::
      && DistinctIds(listings) && Addressed(listings)
      && IsClustering(run, SetOf(IdsOf(listings)), CandidateMerges(config, listings), idOf)
      && IsClustering(brute, SetOf(IdsOf(listings)), AllMerges(config, listings), idOf)
      ==> run == brute
  }

  lemma LosslessAboveBound(config: Config, listings: seq<Listing>)
    requires Weighted(config) && config.autoMerge > UnsharedBound(config)
    requires Addressed(listings)
    ensures CandidateMerges(config, listings) == AllMerges(config, listings)
  {
    hide KeysOf, Score;
    forall i, j | 0 <= i < |listings| && 0 <= j < |listings| && Merges(config, listings, i, j)
      ensures KeysOf(listings[i]) * KeysOf(listings[j]) != {}
    {
      assert listings[i] in listings && listings[j] in listings;
      if KeysOf(listings[i]) * KeysOf(listings[j]) == {} {
        NoSharedKeyScoresLow(config, listings[i], listings[j]);
        assert false;
      }
    }
  }

  lemma DifferentAddresses(l: Listing, r: Listing, u: string)
    requires l.addresses == ["x"] && r.addresses == ["y"] && l.units == [u] && r.units == [u]
    ensures KeysOf(l) * KeysOf(r) == {}
  {
    var l1, l2, r1, r2 := "addr:" + "x", "addr_unit:" + "x" + "|" + u, "addr:" + "y", "addr_unit:" + "y" + "|" + u;
    assert l1[4] == r1[4] == ':' && l2[4] == r2[4] == '_';
    assert l1[5] == 'x' && r1[5] == 'y' && l2[10] == 'x' && r2[10] == 'y';
    assert l1 != r1 && l1 != r2 && l2 != r1 && l2 != r2;
    forall k | k in KeysOf(l) ensures k == l1 || k == l2 {}
    forall k | k in KeysOf(r) ensures k == r1 || k == r2 {}
  }

  // The listings of a lost merge: two of them, merged when every pair is scored, and not merged as candidates.
  ghost predicate Loses(config: Config, listings: seq<Listing>) {
    && DistinctIds(listings) && IdsOf(listings) == [0, 1]
    && CandidateMerges(config, listings) == {} && AllMerges(config, listings) == {Edge(0, 1)}
  }

  lemma LosesPair(config: Config, l: Listing, r: Listing)
    requires l.id == 0 && r.id == 1 && KeysOf(l) * KeysOf(r) == {} && Score(config, l, r) >= config.autoMerge
    ensures Loses(config, [l, r])
  {
    hide KeysOf, Score;
    var listings := [l, r];
    assert Merges(config, listings, 0, 1);
    forall i, j | Merges(config, listings, i, j) ensures i == 0 && j == 1 {}
    assert Edge(0, 1) in AllMerges(config, listings);
    assert IdsOf(listings) == [0, 1];
  }

  // Two listings with different addresses, but the same unit and, where prices can match, the same price.
  lemma LostMerge(config: Config) returns (listings: seq<Listing>)
    requires Weighted(config) && config.autoMerge <= UnsharedBound(config)
    ensures Addressed(listings) && Loses(config, listings)
  {
    var prices := if config.priceTolerance >= 0.0 then [Some(1.0)] else [];
    var l, r := Listing(0, ["x"], ["u"], prices), Listing(1, ["y"], ["u"], prices);
    listings := [l, r];
    assert KeysOf(l) * KeysOf(r) == {} by { DifferentAddresses(l, r, "u"); }
    assert FeatureMatch(l.units, r.units) == Some(1.0) by { assert "u" in l.units && "u" in r.units; }
    assert FeatureMatch(l.addresses, r.addresses) == Some(0.0);
    if config.priceTolerance >= 0.0 {
      assert 1.0 in Numbers(prices) by { assert Some(1.0) in prices; }
      assert WithinTolerance(1.0, 1.0, config.priceTolerance);
    } else {
      assert Numbers(prices) == {};
    }
    MatchesButAddress(config, FeaturesOf(config, l, r));
    LosesPair(config, l, r);
  }

  lemma MatchesButAddress(config: Config, f: Features)
    requires Weighted(config) && f.address == Some(0.0) && f.unit == Some(1.0)
    requires f.price == if config.priceTolerance >= 0.0 then Some(1.0) else None
    ensures ScoreFeatures(config, f) == UnsharedBound(config)
  {
  }

  // Two listings without an address that share a unit and a price score the maximum, if those count at all, and have
  // no key.
  lemma LostWithoutAddresses(config: Config) returns (listings: seq<Listing>)
    requires Weighted(config) && config.autoMerge <= if OtherWeight(config) > 0.0 then 1.0 else 0.0
    ensures Loses(config, listings)
  {
    var prices := if config.priceTolerance >= 0.0 then [Some(1.0)] else [];
    var l, r := Listing(0, [], ["u"], prices), Listing(1, [], ["u"], prices);
    listings := [l, r];
    assert FeatureMatch(l.units, r.units) == Some(1.0) by { assert "u" in l.units && "u" in r.units; }
    if config.priceTolerance >= 0.0 {
      assert 1.0 in Numbers(prices) by { assert Some(1.0) in prices; }
      assert WithinTolerance(1.0, 1.0, config.priceTolerance);
    } else {
      assert Numbers(prices) == {};
    }
    AllMatches(config, FeaturesOf(config, l, r));
    LosesPair(config, l, r);
  }

  lemma AllMatches(config: Config, f: Features)
    requires Weighted(config) && f.address == None && f.unit == Some(1.0)
    requires f.price == if config.priceTolerance >= 0.0 then Some(1.0) else None
    ensures ScoreFeatures(config, f) == if OtherWeight(config) > 0.0 then 1.0 else 0.0
  {
    var u, p := Weight(config, "unit_match", f.unit), Weight(config, "price_match", f.price);
    var n := 0.0 * Value(f.address) + u * Value(f.unit) + p * Value(f.price);
    assert n == u + p == OtherWeight(config);
    AtMostOne(n, u + p);
    if n > 0.0 { assert n / (u + p) == 1.0; }
  }

  // The bound is exactly where blocking becomes safe for addressed listings.
  lemma LosslessIff(config: Config)
    requires Weighted(config)
    ensures Lossless(config) <==> config.autoMerge > UnsharedBound(config)
  {
    hide CandidateMerges, AllMerges, DistinctIds, Addressed;
    if config.autoMerge > UnsharedBound(config) {
      forall listings | DistinctIds(listings) && Addressed(listings)
        ensures CandidateMerges(config, listings) == AllMerges(config, listings)
      {
        LosslessAboveBound(config, listings);
      }
    } else {
      var listings := LostMerge(config);
    }
  }

  // When listings may lack an address, blocking is safe only where nothing merges at all, since the source allows no
  // threshold above 1; or above 0 if nothing but addresses counts.
  lemma LosslessWithoutAddressesIff(config: Config)
    requires Weighted(config)
    ensures LosslessWithoutAddresses(config) <==> config.autoMerge > if OtherWeight(config) > 0.0 then 1.0 else 0.0
  {
    hide Score, KeysOf, OtherWeight, UnsharedBound;
    if config.autoMerge > if OtherWeight(config) > 0.0 then 1.0 else 0.0 {
      NothingWithoutBound(config);
      forall listings, i, j | Merges(config, listings, i, j) ensures KeysOf(listings[i]) * KeysOf(listings[j]) != {} {
        MergesShareKey(config, listings[i], listings[j]);
      }
    } else {
      var listings := LostWithoutAddresses(config);
      assert CandidateMerges(config, listings) != AllMerges(config, listings) by { hide CandidateMerges, AllMerges; }
    }
  }

  lemma NothingWithoutBound(config: Config)
    requires Weighted(config)
    ensures OtherWeight(config) >= 0.0
    ensures OtherWeight(config) == 0.0 ==> UnsharedBound(config) == 0.0
  {
  }

  lemma MergesShareKey(config: Config, l: Listing, r: Listing)
    requires Weighted(config) && config.autoMerge > (if OtherWeight(config) > 0.0 then 1.0 else 0.0)
    requires Score(config, l, r) >= config.autoMerge
    ensures KeysOf(l) * KeysOf(r) != {}
  {
    hide Score, KeysOf, OtherWeight, UnsharedBound;
    NothingWithoutBound(config);
    NoScoreAboveOne(config, l, r);
    if KeysOf(l) * KeysOf(r) == {} && l.addresses != [] && r.addresses != [] {
      NoSharedKeyScoresLow(config, l, r);
    }
  }

  // The clusters of two ids, apart and together.
  lemma TwoClusterings(idOf: seq<Id> -> Id) returns (apart: seq<Cluster>, together: seq<Cluster>)
    requires Injective(idOf)
    ensures IsClustering(apart, {0, 1}, {}, idOf) && IsClustering(together, {0, 1}, {Edge(0, 1)}, idOf)
    ensures apart != together
  {
    assert [0] != [1];
    if idOf([0]) < idOf([1]) {
      apart := [Cluster(idOf([0]), [0]), Cluster(idOf([1]), [1])];
      Singletons(idOf, apart, 0, 1);
    } else {
      apart := [Cluster(idOf([1]), [1]), Cluster(idOf([0]), [0])];
      Singletons(idOf, apart, 1, 0);
    }
    together := [Cluster(idOf([0, 1]), [0, 1])];
    OnePair(idOf, together);
    hide IsClustering;
  }

  lemma Singletons(idOf: seq<Id> -> Id, clusters: seq<Cluster>, x: Id, y: Id)
    requires x != y && clusters == [Cluster(idOf([x]), [x]), Cluster(idOf([y]), [y])] && idOf([x]) < idOf([y])
    ensures IsClustering(clusters, {x, y}, {}, idOf)
  {
    hide Linked;
    assert clusters[0] in clusters && clusters[1] in clusters;
    assert WellFormed(clusters, {x, y}, idOf);
    assert Covers(clusters, {x, y});
    forall a, b ensures Linked({}, a, b) <==> a == b { NothingLinked(a, b); }
    assert SplitByLinks(clusters, {x, y}, {});
  }

  lemma OnePair(idOf: seq<Id> -> Id, clusters: seq<Cluster>)
    requires clusters == [Cluster(idOf([0, 1]), [0, 1])]
    ensures IsClustering(clusters, {0, 1}, {Edge(0, 1)}, idOf)
  {
    hide Linked;
    assert clusters[0] in clusters;
    assert WellFormed(clusters, {0, 1}, idOf);
    assert Covers(clusters, {0, 1});
    PairLinked();
    assert SplitByLinks(clusters, {0, 1}, {Edge(0, 1)});
  }

  lemma NothingLinked(x: Id, y: Id)
    ensures Linked({}, x, y) <==> x == y
  {
    LinkedSelf({}, x);
    forall c ensures Chain({}, c) ==> |c| == 1 { assert |c| > 1 ==> !Adjacent({}, c[0], c[1]); }
  }

  lemma PairLinked()
    ensures forall x, y :: x in {0, 1} && y in {0, 1} ==> Linked({Edge(0, 1)}, x, y)
  {
    var e := {Edge(0, 1)};
    LinkedSelf(e, 0);
    LinkedSelf(e, 1);
    LinkedByEdge(e, 0, 1);
    LinkedByEdge(e, 1, 0);
  }

  // The same bound decides for the resulting clusters.
  lemma KeepsClustersIff(config: Config, idOf: seq<Id> -> Id)
    requires Weighted(config) && Injective(idOf)
    ensures KeepsClusters(config, idOf) <==> config.autoMerge > UnsharedBound(config)
  {
    hide IsClustering, DistinctIds, Addressed, CandidateMerges, AllMerges;
    if config.autoMerge > UnsharedBound(config) {
      forall listings, run, brute |
        && DistinctIds(listings) && Addressed(listings)
        && IsClustering(run, SetOf(IdsOf(listings)), CandidateMerges(config, listings), idOf)
        && IsClustering(brute, SetOf(IdsOf(listings)), AllMerges(config, listings), idOf)
        ensures run == brute
      {
        BlockingKeepsClusters(config, listings, idOf, run, brute);
      }
    } else {
      var listings := LostMerge(config);
      var apart, together := TwoClusterings(idOf);
      assert SetOf(IdsOf(listings)) == {0, 1};
      assert !KeepsClusters(config, idOf);
    }
  }

  // ---------- the whole run ----------

  method ById(listings: seq<Listing>) returns (byId: map<Id, Listing>)
    requires DistinctIds(listings)
    ensures forall i :: 0 <= i < |listings| ==> listings[i].id in byId && byId[listings[i].id] == listings[i]
  {
    byId := map[];
    for n := 0 to |listings|
      invariant forall i :: 0 <= i < n ==> listings[i].id in byId && byId[listings[i].id] == listings[i]
    {
      byId := byId[listings[n].id := listings[n]];
    }
  }

  // The listing positions of a candidate pair.
  ghost predicate PairAt(listings: seq<Listing>, c: PairCandidate, i: int, j: int) {
    0 <= i < |listings| && 0 <= j < |listings| && listings[i].id == c.left && listings[j].id == c.right
  }

  lemma PairHasListings(listings: seq<Listing>, pairs: seq<PairCandidate>, c: PairCandidate)
    requires IsBlocking(pairs, listings) && c in pairs
    ensures exists i, j :: PairAt(listings, c, i, j)
  {
    var k :| k in c.keys;
    assert Has(listings, |listings|, c.left, k) && Has(listings, |listings|, c.right, k);
    var i :| 0 <= i < |listings| && listings[i].id == c.left && k in KeysOf(listings[i]);
    var j :| 0 <= j < |listings| && listings[j].id == c.right && k in KeysOf(listings[j]);
    assert PairAt(listings, c, i, j);
  }

  // The decision for a candidate pair is the one its two listings get.
  ghost predicate DecidedAs(config: Config, listings: seq<Listing>, c: PairCandidate, d: PairDecision) {
    forall i, j :: PairAt(listings, c, i, j) ==> d == Decision(config, listings[i], listings[j])
  }

  // Scores the candidate pairs in the order they come in, which is already the order of the result.
  method Decide(config: Config, listings: seq<Listing>, pairs: seq<PairCandidate>)
    returns (decisions: seq<PairDecision>)
    requires DistinctIds(listings) && IsBlocking(pairs, listings)
    ensures |decisions| == |pairs|
    ensures forall n :: 0 <= n < |pairs| ==> DecidedAs(config, listings, pairs[n], decisions[n])
    ensures forall n :: 0 <= n < |pairs| ==> BandedAs(config, decisions[n])
    ensures forall n, i, j {:trigger PairAt(listings, pairs[n], i, j)} ::
              0 <= n < |pairs| && PairAt(listings, pairs[n], i, j) ==>
              && decisions[n].left == listings[i].id && decisions[n].right == listings[j].id
              && ScoresAs(config, listings[i], listings[j], decisions[n].score)
  {
    var byId := ById(listings);
    decisions := [];
    for n := 0 to |pairs|
      invariant |decisions| == n
      invariant forall m :: 0 <= m < n ==> DecidedAs(config, listings, pairs[m], decisions[m])
    {
      hide Decision, IsBlocking, DistinctIds;
      var c := pairs[n];
      PairHasListings(listings, pairs, c);
      var d := Decision(config, byId[c.left], byId[c.right]);
      decisions := decisions + [d];
    }
    DecisionsMean(config, listings, pairs, decisions);
  }

  lemma DecisionsMean(config: Config, listings: seq<Listing>, pairs: seq<PairCandidate>, decisions: seq<PairDecision>)
    requires IsBlocking(pairs, listings) && |decisions| == |pairs|
    requires forall n :: 0 <= n < |pairs| ==> DecidedAs(config, listings, pairs[n], decisions[n])
    ensures forall n :: 0 <= n < |pairs| ==> BandedAs(config, decisions[n])
    ensures forall n, i, j {:trigger PairAt(listings, pairs[n], i, j)} ::
              0 <= n < |pairs| && PairAt(listings, pairs[n], i, j) ==>
              && decisions[n].left == listings[i].id && decisions[n].right == listings[j].id
              && ScoresAs(config, listings[i], listings[j], decisions[n].score)
  {
    hide Decision, BandedAs, ScoresAs, IsBlocking, PairAt;
    forall n | 0 <= n < |pairs| ensures BandedAs(config, decisions[n]) {
      PairHasListings(listings, pairs, pairs[n]);
      var i, j :| PairAt(listings, pairs[n], i, j);
      DecidedMeans(config, listings, pairs[n], decisions[n], i, j);
    }
    forall n, i, j {:trigger PairAt(listings, pairs[n], i, j)} | 0 <= n < |pairs| && PairAt(listings, pairs[n], i, j)
      ensures && PairAt(listings, pairs[n], i, j)
              && 0 <= i < |listings| && 0 <= j < |listings|
              && decisions[n].left == listings[i].id && decisions[n].right == listings[j].id
              && ScoresAs(config, listings[i], listings[j], decisions[n].score)
    {
      DecidedMeans(config, listings, pairs[n], decisions[n], i, j);
    }
  }

  lemma DecidedMeans(config: Config, listings: seq<Listing>, c: PairCandidate, d: PairDecision, i: int, j: int)
    requires PairAt(listings, c, i, j) && DecidedAs(config, listings, c, d)
    ensures 0 <= i < |listings| && 0 <= j < |listings|
    ensures d.left == listings[i].id && d.right == listings[j].id
    ensures ScoresAs(config, listings[i], listings[j], d.score) && BandedAs(config, d)
  {
    hide Decision, ScoresAs, BandedAs;
    DecisionMeans(config, listings[i], listings[j]);
  }

  ghost predicate DecisionsInOrder(decisions: seq<PairDecision>) {
    forall i, j :: 0 <= i < j < |decisions| ==>
      Before(Edge(decisions[i].left, decisions[i].right), Edge(decisions[j].left, decisions[j].right))
  }

  lemma DecidedInOrder(config: Config, listings: seq<Listing>, pairs: seq<PairCandidate>, decisions: seq<PairDecision>)
    requires IsBlocking(pairs, listings) && |decisions| == |pairs|
    requires forall n :: 0 <= n < |pairs| ==> DecidedAs(config, listings, pairs[n], decisions[n])
    ensures DecisionsInOrder(decisions)
  {
    hide Score, KeysOf;
    forall n | 0 <= n < |pairs| ensures decisions[n].left == pairs[n].left && decisions[n].right == pairs[n].right {
      PairHasListings(listings, pairs, pairs[n]);
      var i, j :| PairAt(listings, pairs[n], i, j);
      assert decisions[n] == Decision(config, listings[i], listings[j]);
    }
    assert InOrder(pairs);
    hide IsBlocking;
  }

  // d is the decision of two listings that share a key.
  ghost predicate CandidateAt(config: Config, listings: seq<Listing>, d: PairDecision, i: int, j: int) {
    && 0 <= i < |listings| && 0 <= j < |listings| && listings[i].id < listings[j].id
    && KeysOf(listings[i]) * KeysOf(listings[j]) != {}
    && d == Decision(config, listings[i], listings[j])
  }

  ghost predicate IsCandidateDecision(config: Config, listings: seq<Listing>, d: PairDecision) {
    exists i, j :: CandidateAt(config, listings, d, i, j)
  }

  lemma DecisionsAreCandidateMerges(config: Config, listings: seq<Listing>, decisions: seq<PairDecision>)
    requires forall d :: d in decisions <==> IsCandidateDecision(config, listings, d)
    ensures EdgesOf(decisions) == CandidateMerges(config, listings)
  {
    hide KeysOf, Score;
    forall x ensures x in EdgesOf(decisions) <==> x in CandidateMerges(config, listings) {
      if x in EdgesOf(decisions) {
        var d :| d in decisions && d.band == AutoMerge && x == Edge(d.left, d.right);
        var i, j :| CandidateAt(config, listings, d, i, j);
        assert Merges(config, listings, i, j);
      }
      if x in CandidateMerges(config, listings) {
        var i, j :| 0 <= i < |listings| && 0 <= j < |listings| && Merges(config, listings, i, j) &&
                    KeysOf(listings[i]) * KeysOf(listings[j]) != {} && x == Edge(listings[i].id, listings[j].id);
        assert CandidateAt(config, listings, Decision(config, listings[i], listings[j]), i, j);
        assert Decision(config, listings[i], listings[j]) in decisions;
      }
    }
  }

  lemma DecisionsAreCandidates(config: Config, listings: seq<Listing>, pairs: seq<PairCandidate>,
                               decisions: seq<PairDecision>)
    requires DistinctIds(listings) && IsBlocking(pairs, listings) && |decisions| == |pairs|
    requires forall n :: 0 <= n < |pairs| ==> DecidedAs(config, listings, pairs[n], decisions[n])
    ensures forall d :: d in decisions <==> IsCandidateDecision(config, listings, d)
  {
    forall d ensures d in decisions <==> IsCandidateDecision(config, listings, d) {
      if d in decisions { DecidedIsCandidate(config, listings, pairs, decisions, d); }
      if IsCandidateDecision(config, listings, d) { CandidateIsDecided(config, listings, pairs, decisions, d); }
    }
  }

  lemma DecidedIsCandidate(config: Config, listings: seq<Listing>, pairs: seq<PairCandidate>,
                           decisions: seq<PairDecision>, d: PairDecision)
    requires DistinctIds(listings) && IsBlocking(pairs, listings) && |decisions| == |pairs| && d in decisions
    requires forall n :: 0 <= n < |pairs| ==> DecidedAs(config, listings, pairs[n], decisions[n])
    ensures IsCandidateDecision(config, listings, d)
  {
    hide Score, KeysOf;
    var n :| 0 <= n < |decisions| && decisions[n] == d;
    var c := pairs[n];
    assert c in pairs;
    PairHasListings(listings, pairs, c);
    var i, j :| PairAt(listings, c, i, j);
    var k :| k in c.keys;
    KeyAt(listings, c.left, k, i);
    KeyAt(listings, c.right, k, j);
    assert k in KeysOf(listings[i]) * KeysOf(listings[j]);
    assert CandidateAt(config, listings, d, i, j);
  }

  lemma KeyAt(listings: seq<Listing>, id: Id, k: string, i: nat)
    requires DistinctIds(listings) && Has(listings, |listings|, id, k) && i < |listings| && listings[i].id == id
    ensures k in KeysOf(listings[i])
  {
    hide KeysOf;
    var i2 :| 0 <= i2 < |listings| && listings[i2].id == id && k in KeysOf(listings[i2]);
    assert i2 == i;
  }

  lemma CandidateIsDecided(config: Config, listings: seq<Listing>, pairs: seq<PairCandidate>,
                           decisions: seq<PairDecision>, d: PairDecision)
    requires IsBlocking(pairs, listings) && |decisions| == |pairs| && IsCandidateDecision(config, listings, d)
    requires forall n :: 0 <= n < |pairs| ==> DecidedAs(config, listings, pairs[n], decisions[n])
    ensures d in decisions
  {
    hide Score, KeysOf;
    var i, j :| CandidateAt(config, listings, d, i, j);
    var k :| k in KeysOf(listings[i]) * KeysOf(listings[j]);
    assert Has(listings, |listings|, listings[i].id, k) && Has(listings, |listings|, listings[j].id, k);
    var c :| c in pairs && c.left == listings[i].id && c.right == listings[j].id;
    var n :| 0 <= n < |pairs| && pairs[n] == c;
    assert PairAt(listings, c, i, j);
    assert decisions[n] == d;
  }

  function IdsOf(listings: seq<Listing>): seq<Id> { seq(|listings|, i requires 0 <= i < |listings| => listings[i].id) }

  method Run(config: Config, listings: seq<Listing>, idOf: seq<Id> -> Id)
    returns (clusters: seq<Cluster>, reviewQueue: seq<PairDecision>)
    requires DistinctIds(listings) && Injective(idOf)
    ensures IsClustering(clusters, SetOf(IdsOf(listings)), CandidateMerges(config, listings), idOf)
    ensures forall d :: d in reviewQueue <==> d.band == Review && IsCandidateDecision(config, listings, d)
    ensures DecisionsInOrder(reviewQueue)
    ensures forall x :: x in CandidateMerges(config, listings) <==>
              exists i, j, s :: AlikeAt(config, listings, i, j, x, s) && config.autoMerge <= s
    ensures forall d :: d in reviewQueue <==>
              d.band == Review && config.review <= d.score < config.autoMerge
              && exists i, j :: AlikeAt(config, listings, i, j, Edge(d.left, d.right), d.score)
  {
    forall x ensures x in CandidateMerges(config, listings) <==>
                     exists i, j, s :: AlikeAt(config, listings, i, j, x, s) && config.autoMerge <= s {
      CandidateMergesMean(config, listings, x);
    }
    forall d: PairDecision
      ensures d.band == Review && IsCandidateDecision(config, listings, d) <==>
              d.band == Review && config.review <= d.score < config.autoMerge
              && exists i, j :: AlikeAt(config, listings, i, j, Edge(d.left, d.right), d.score)
    {
      ReviewsMean(config, listings, d);
    }
    hide AlikeAt;
    var pairs := Block(listings);
    var decisions := Decide(config, listings, pairs);
    DecidedInOrder(config, listings, pairs, decisions);
    DecisionsAreCandidates(config, listings, pairs, decisions);
    DecisionsAreCandidateMerges(config, listings, decisions);
    forall d | d in decisions ensures d.left in IdsOf(listings) && d.right in IdsOf(listings) {
      var i, j :| CandidateAt(config, listings, d, i, j);
      assert IdsOf(listings)[i] == d.left && IdsOf(listings)[j] == d.right;
    }
    clusters := MakeClusters(IdsOf(listings), decisions, idOf);
    reviewQueue := ForReview(decisions);
  }

  lemma CandidateMergesMean(config: Config, listings: seq<Listing>, x: Edge)
    ensures x in CandidateMerges(config, listings) <==>
            exists i, j, s :: AlikeAt(config, listings, i, j, x, s) && config.autoMerge <= s
  {
    hide KeysOf, Score, ScoresAs, Alike;
    if x in CandidateMerges(config, listings) {
      var i, j :| 0 <= i < |listings| && 0 <= j < |listings| && Merges(config, listings, i, j) &&
                  KeysOf(listings[i]) * KeysOf(listings[j]) != {} && x == Edge(listings[i].id, listings[j].id);
      KeysMeetIff(listings[i], listings[j]);
      DecisionMeans(config, listings[i], listings[j]);
      assert AlikeAt(config, listings, i, j, x, Decision(config, listings[i], listings[j]).score);
    }
    if i, j, s :| AlikeAt(config, listings, i, j, x, s) && config.autoMerge <= s {
      KeysMeetIff(listings[i], listings[j]);
      ScoreMeans(config, listings[i], listings[j]);
      DecisionMeans(config, listings[i], listings[j]);
      assert Merges(config, listings, i, j);
    }
  }

  lemma ReviewsMean(config: Config, listings: seq<Listing>, d: PairDecision)
    ensures d.band == Review && IsCandidateDecision(config, listings, d) <==>
            d.band == Review && config.review <= d.score < config.autoMerge
            && exists i, j :: AlikeAt(config, listings, i, j, Edge(d.left, d.right), d.score)
  {
    hide KeysOf, Score, ScoresAs, Alike;
    if d.band == Review && IsCandidateDecision(config, listings, d) {
      var i, j :| CandidateAt(config, listings, d, i, j);
      KeysMeetIff(listings[i], listings[j]);
      DecisionMeans(config, listings[i], listings[j]);
      assert AlikeAt(config, listings, i, j, Edge(d.left, d.right), d.score);
    }
    if i, j :| AlikeAt(config, listings, i, j, Edge(d.left, d.right), d.score) {
      KeysMeetIff(listings[i], listings[j]);
      ScoreMeans(config, listings[i], listings[j]);
      DecisionMeans(config, listings[i], listings[j]);
      if d.band == Review && config.review <= d.score < config.autoMerge {
        assert CandidateAt(config, listings, d, i, j);
      }
    }
  }

  method ForReview(decisions: seq<PairDecision>) returns (reviewQueue: seq<PairDecision>)
    requires DecisionsInOrder(decisions)
    ensures forall d :: d in reviewQueue <==> d.band == Review && d in decisions
    ensures DecisionsInOrder(reviewQueue)
  {
    reviewQueue := [];
    for n := 0 to |decisions|
      invariant forall d :: d in reviewQueue <==> d.band == Review && d in decisions[..n]
      invariant DecisionsInOrder(reviewQueue)
    {
      assert decisions[..n + 1] == decisions[..n] + [decisions[n]];
      if decisions[n].band == Review {
        forall i | 0 <= i < |reviewQueue|
          ensures Before(Edge(reviewQueue[i].left, reviewQueue[i].right), Edge(decisions[n].left, decisions[n].right))
        {
          assert reviewQueue[i] in decisions[..n];
        }
        reviewQueue := reviewQueue + [decisions[n]];
      }
    }
    assert decisions[..|decisions|] == decisions;
  }

  // Above the bound the run's clusters are those of scoring every pair.
  lemma BlockingKeepsClusters(config: Config, listings: seq<Listing>, idOf: seq<Id> -> Id,
                              run: seq<Cluster>, brute: seq<Cluster>)
    requires Weighted(config) && config.autoMerge > UnsharedBound(config)
    requires Addressed(listings)
    requires IsClustering(run, SetOf(IdsOf(listings)), CandidateMerges(config, listings), idOf)
    requires IsClustering(brute, SetOf(IdsOf(listings)), AllMerges(config, listings), idOf)
    ensures run == brute
  {
    LosslessAboveBound(config, listings);
    ClusteringUnique(run, brute, SetOf(IdsOf(listings)), AllMerges(config, listings), idOf);
  }

  // A lower threshold merges more, so it only coarsens the clusters.
  lemma LowerThresholdMergesMore(config: Config, lower: real, listings: seq<Listing>)
    requires lower <= config.autoMerge
    ensures CandidateMerges(config, listings) <= CandidateMerges(config.(autoMerge := lower), listings)
  {
    hide KeysOf, ScoreFeatures, FeaturesOf;
    forall i, j | Merges(config, listings, i, j) ensures Merges(config.(autoMerge := lower), listings, i, j) {
      SameScore(config, lower, listings[i], listings[j]);
    }
  }

  lemma LowerThresholdCoarsens(config: Config, lower: real, listings: seq<Listing>, idOf: seq<Id> -> Id,
                               run: seq<Cluster>, lowerRun: seq<Cluster>, c: Cluster)
    requires lower <= config.autoMerge && c in run
    requires IsClustering(run, SetOf(IdsOf(listings)), CandidateMerges(config, listings), idOf)
    requires IsClustering(lowerRun, SetOf(IdsOf(listings)), CandidateMerges(config.(autoMerge := lower), listings),
                          idOf)
    ensures exists c2 :: c2 in lowerRun && forall x :: x in c.members ==> x in c2.members
  {
    hide IsClustering, CandidateMerges;
    LowerThresholdMergesMore(config, lower, listings);
    MoreMergesCoarsen(run, lowerRun, SetOf(IdsOf(listings)), CandidateMerges(config, listings),
                      CandidateMerges(config.(autoMerge := lower), listings), idOf, c);
  }

  lemma SameScore(config: Config, lower: real, l: Listing, r: Listing)
    ensures Score(config.(autoMerge := lower), l, r) == Score(config, l, r)
  {
  }
}
