// services/dedupe/service.py: union-find with path compression, and clusters as connected components.
module Clustering {
  import opened Prelude
  import opened Sorting

  datatype Band = AutoMerge | Review | AutoSeparate

  datatype PairDecision = PairDecision(left: Id, right: Id, score: real, band: Band)

  datatype Cluster = Cluster(clusterId: Id, members: seq<Id>)

  // ---------- connectedness ----------

  datatype Edge = Edge(a: Id, b: Id)

  type Edges = set<Edge>

  ghost predicate Adjacent(e: Edges, a: Id, b: Id) { Edge(a, b) in e || Edge(b, a) in e }

  ghost predicate Chain(e: Edges, c: seq<Id>) {
    c != [] && forall i :: 0 <= i < |c| - 1 ==> Adjacent(e, c[i], c[i + 1])
  }

  // A chain of merge decisions leads from a to b.
  ghost predicate Linked(e: Edges, a: Id, b: Id) {
    exists c :: Chain(e, c) && c[0] == a && c[|c| - 1] == b
  }

  lemma LinkedSelf(e: Edges, a: Id)
    ensures Linked(e, a, a)
  {
    assert Chain(e, [a]);
  }

  lemma LinkedByEdge(e: Edges, a: Id, b: Id)
    requires Adjacent(e, a, b)
    ensures Linked(e, a, b)
  {
    assert Chain(e, [a, b]);
  }

  lemma LinkedBack(e: Edges, a: Id, b: Id)
    requires Linked(e, a, b)
    ensures Linked(e, b, a)
  {
    var c :| Chain(e, c) && c[0] == a && c[|c| - 1] == b;
    var r := seq(|c|, i requires 0 <= i < |c| => c[|c| - 1 - i]);
    assert Chain(e, r);
  }

  lemma LinkedOn(e: Edges, a: Id, b: Id, d: Id)
    requires Linked(e, a, b) && Linked(e, b, d)
    ensures Linked(e, a, d)
  {
    var c1 :| Chain(e, c1) && c1[0] == a && c1[|c1| - 1] == b;
    var c2 :| Chain(e, c2) && c2[0] == b && c2[|c2| - 1] == d;
    var c := c1 + c2[1..];
    forall i | 0 <= i < |c| - 1 ensures Adjacent(e, c[i], c[i + 1]) {
      if i >= |c1| - 1 {
        assert c[i] == c2[i - (|c1| - 1)] && c[i + 1] == c2[i + 1 - (|c1| - 1)];
      }
    }
    assert Chain(e, c);
  }

  lemma LinkedInMore(e: Edges, more: Edges, a: Id, b: Id)
    requires Linked(e, a, b) && e <= more
    ensures Linked(more, a, b)
  {
    var c :| Chain(e, c) && c[0] == a && c[|c| - 1] == b;
    assert Chain(more, c);
  }

  // ---------- the forest ----------

  ghost predicate Forest(p: map<Id, Id>) {
    forall x {:trigger p[x]} :: x in p ==> p[x] in p && p[x] <= x
  }

  ghost function Root(p: map<Id, Id>, x: Id): (r: Id)
    requires Forest(p) && x in p
    ensures r in p && p[r] == r && r <= x
    decreases x
  {
    if p[x] == x then x else Root(p, p[x])
  }

  // Pointing one element straight at its root changes no root.
  lemma {:induction false} CompressionKeepsRoots(p: map<Id, Id>, x: Id, y: Id)
    requires Forest(p) && x in p && y in p
    ensures Forest(p[x := Root(p, x)]) && Root(p[x := Root(p, x)], y) == Root(p, y)
    decreases y
  {
    var q := p[x := Root(p, x)];
    if y == x {
      assert q[Root(p, x)] == Root(p, x);
    } else if p[y] != y {
      CompressionKeepsRoots(p, x, p[y]);
    }
  }

  // Hanging a larger root under a smaller one moves exactly the larger root's elements.
  lemma {:induction false} LinkingMovesRoot(p: map<Id, Id>, lo: Id, hi: Id, y: Id)
    requires Forest(p) && lo in p && hi in p && y in p && p[lo] == lo && p[hi] == hi && lo < hi
    ensures Forest(p[hi := lo])
    ensures Root(p[hi := lo], y) == if Root(p, y) == hi then lo else Root(p, y)
    decreases y
  {
    var q := p[hi := lo];
    if y == hi {
      assert Root(q, lo) == lo;
    } else if p[y] != y {
      LinkingMovesRoot(p, lo, hi, p[y]);
    }
  }

  ghost predicate SameRoots(p: map<Id, Id>, q: map<Id, Id>) {
    Forest(p) && Forest(q) && q.Keys == p.Keys && forall y {:trigger Root(q, y)} :: y in p ==> Root(q, y) == Root(p, y)
  }

  lemma CompressionKeepsAllRoots(p: map<Id, Id>, q: map<Id, Id>, x: Id)
    requires Forest(p) && x in p && q == p[x := Root(p, x)]
    ensures SameRoots(p, q)
  {
    CompressionKeepsRoots(p, x, x);
    forall y {:trigger Root(q, y)} | y in p ensures Root(q, y) == Root(p, y) {
      CompressionKeepsRoots(p, x, y);
    }
  }

  lemma SameRootsOn(p: map<Id, Id>, q: map<Id, Id>, r: map<Id, Id>)
    requires SameRoots(p, q) && SameRoots(q, r)
    ensures SameRoots(p, r)
  {
    hide Root;
    forall y {:trigger Root(r, y)} | y in p ensures Root(r, y) == Root(p, y) {
      assert Root(q, y) == Root(p, y);
    }
  }

  lemma RootStep(p: map<Id, Id>, x: Id)
    requires Forest(p) && x in p
    ensures Root(p, x) == Root(p, p[x]) && (p[x] == x ==> Root(p, x) == x)
  {
  }

  lemma FoundAtRoot(p: map<Id, Id>, x: Id)
    requires Forest(p) && x in p
    ensures p[x] == x ==> SameRoots(p, p) && Root(p, x) == x
    ensures p[x] in p && p[x] <= x
  {
  }

  lemma Compressed(p: map<Id, Id>, found: map<Id, Id>, x: Id)
    requires Forest(p) && x in p && SameRoots(p, found)
    ensures x in found && p[x] in p && SameRoots(p, found[x := Root(p, p[x])]) && Root(p, x) == Root(p, p[x])
  {
    RootStep(p, x);
    hide Root;
    assert Root(found, x) == Root(p, x);
    CompressionKeepsAllRoots(found, found[x := Root(p, x)], x);
    SameRootsOn(p, found, found[x := Root(p, x)]);
  }

  // The two roots become one, the smaller; every other root stays.
  ghost predicate RootsMerged(p: map<Id, Id>, q: map<Id, Id>, a: Id, b: Id) {
    && Forest(p) && Forest(q) && q.Keys == p.Keys
    && forall y {:trigger Root(q, y)} :: y in p ==>
         Root(q, y) == if Root(p, y) == Max(a, b) then Min(a, b) else Root(p, y)
  }

  lemma LinkingMerges(p: map<Id, Id>, q: map<Id, Id>, lo: Id, hi: Id)
    requires Forest(p) && lo in p && hi in p && p[lo] == lo && p[hi] == hi && lo < hi && q == p[hi := lo]
    ensures RootsMerged(p, q, lo, hi) && RootsMerged(p, q, hi, lo)
  {
    LinkingMovesRoot(p, lo, hi, lo);
    hide Root;
    forall y {:trigger Root(q, y)} | y in p ensures Root(q, y) == if Root(p, y) == hi then lo else Root(p, y) {
      LinkingMovesRoot(p, lo, hi, y);
    }
  }

  lemma NothingToMerge(p: map<Id, Id>, q: map<Id, Id>, a: Id)
    requires SameRoots(p, q)
    ensures RootsMerged(p, q, a, a)
  {
    hide Root;
  }

  lemma MergedAfterSame(p: map<Id, Id>, q: map<Id, Id>, r: map<Id, Id>, a: Id, b: Id)
    requires SameRoots(p, q) && RootsMerged(q, r, a, b)
    ensures RootsMerged(p, r, a, b)
  {
    hide Root;
    forall y {:trigger Root(r, y)} | y in p
      ensures Root(r, y) == if Root(p, y) == Max(a, b) then Min(a, b) else Root(p, y)
    {
      assert Root(q, y) == Root(p, y);
    }
  }

  predicate IdLe(a: Id, b: Id) { a <= b }

  class UnionFind {
    var parent: map<Id, Id>

    constructor (items: seq<Id>)
      ensures parent == map x | x in items :: x
      ensures parent.Keys == SetOf(items)
    {
      parent := map x | x in items :: x;
    }

    method Find(item: Id) returns (root: Id)
      requires Forest(parent) && item in parent
      modifies this
      ensures SameRoots(old(parent), parent)
      ensures root == Root(old(parent), item)
      decreases item
    {
      hide Root, SameRoots;
      ghost var before := parent;
      FoundAtRoot(before, item);
      var p := parent[item];
      if p != item {
        var r := Find(p);
        ghost var found := parent;
        Compressed(before, found, item);
        parent := parent[item := r];
      }
      root := parent[item];
    }

    method Union(left: Id, right: Id)
      requires Forest(parent) && left in parent && right in parent
      modifies this
      ensures RootsMerged(old(parent), parent, Root(old(parent), left), Root(old(parent), right))
    {
      hide Root;
      ghost var before := parent;
      var leftRoot := Find(left);
      ghost var found := parent;
      var rightRoot := Find(right);
      ghost var q := parent;
      SameRootsOn(before, found, q);
      assert Root(q, left) == leftRoot && Root(q, right) == rightRoot;
      NothingToMerge(before, q, leftRoot);
      if leftRoot != rightRoot {
        assert q[leftRoot] == leftRoot && q[rightRoot] == rightRoot;
        if leftRoot < rightRoot {
          parent := parent[rightRoot := leftRoot];
          LinkingMerges(q, parent, leftRoot, rightRoot);
        } else {
          parent := parent[leftRoot := rightRoot];
          LinkingMerges(q, parent, rightRoot, leftRoot);
        }
        MergedAfterSame(before, q, parent, leftRoot, rightRoot);
      }
    }

    // The dictionary's order is immaterial: every list of members is sorted at the end.
    method Groups() returns (grouped: map<Id, seq<Id>>)
      requires Forest(parent)
      modifies this
      ensures SameRoots(old(parent), parent)
      ensures GroupedByRoot(old(parent), grouped)
      ensures forall r :: r in grouped ==> Ascending(grouped[r])
    {
      hide Root, Forest;
      ghost var p := parent;
      grouped := map[];
      var todo := parent.Keys;
      while todo != {}
        invariant todo <= p.Keys && SameRoots(p, parent)
        invariant PartlyGrouped(p, grouped, p.Keys - todo)
      {
        var item :| item in todo;
        ghost var before := parent;
        var root := Find(item);
        SameRootsOn(p, before, parent);
        assert root == Root(p, item);
        var members := if root in grouped then grouped[root] else [];
        GroupOneMore(p, grouped, p.Keys - todo, item);
        grouped := grouped[root := members + [item]];
        assert p.Keys - (todo - {item}) == (p.Keys - todo) + {item};
        todo := todo - {item};
      }
      assert p.Keys - todo == p.Keys;
      ghost var unsorted := grouped;
      grouped := SortMembers(grouped);
      FullyGrouped(p, unsorted, grouped);
    }
  }

  method SortMembers<K(!new)>(unsorted: map<K, seq<Id>>) returns (grouped: map<K, seq<Id>>)
    requires forall r :: r in unsorted ==> NoDuplicates(unsorted[r])
    ensures grouped.Keys == unsorted.Keys
    ensures forall r :: r in grouped ==> Ascending(grouped[r]) && multiset(grouped[r]) == multiset(unsorted[r])
  {
    grouped := unsorted;
    var left := grouped.Keys;
    while left != {}
      invariant left <= grouped.Keys == unsorted.Keys
      invariant forall r :: r in left ==> grouped[r] == unsorted[r]
      invariant forall r :: r in grouped && r !in left ==>
                  Ascending(grouped[r]) && multiset(grouped[r]) == multiset(unsorted[r])
      decreases |left|
    {
      var r :| r in left;
      SortedAscends(grouped[r]);
      grouped := grouped[r := Sort(grouped[r], IdLe)];
      left := left - {r};
    }
  }

  // The elements done so far are listed under their roots, each once.
  ghost predicate PartlyGrouped(p: map<Id, Id>, grouped: map<Id, seq<Id>>, done: set<Id>)
    requires Forest(p)
  {
    && done <= p.Keys
    && (forall r :: r in grouped ==> NoDuplicates(grouped[r]) && grouped[r] != [])
    && (forall r, x :: r in grouped && x in grouped[r] ==> x in done && Root(p, x) == r)
    && (forall x {:trigger Root(p, x)} :: x in done ==> Root(p, x) in grouped && x in grouped[Root(p, x)])
  }

  lemma GroupOneMore(p: map<Id, Id>, grouped: map<Id, seq<Id>>, done: set<Id>, x: Id)
    requires Forest(p) && PartlyGrouped(p, grouped, done) && x in p && x !in done
    ensures var r := Root(p, x);
            var members := if r in grouped then grouped[r] else [];
            PartlyGrouped(p, grouped[r := members + [x]], done + {x})
  {
    hide Root;
    var r := Root(p, x);
    if r in grouped {
      assert x !in grouped[r];
      assert multiset(grouped[r] + [x]) == multiset(grouped[r]) + multiset{x};
    } else {
      assert [] + [x] == [x];
    }
  }

  // One group for each root, headed by it, holding what has that root.
  ghost predicate GroupedByRoot(p: map<Id, Id>, grouped: map<Id, seq<Id>>)
    requires Forest(p)
  {
    && (forall r :: r in grouped <==> r in p && p[r] == r)
    && (forall r :: r in grouped ==> grouped[r] != [] && grouped[r][0] == r)
    && (forall r, x :: r in grouped ==> (x in grouped[r] <==> x in p && Root(p, x) == r))
  }

  lemma FullyGrouped(p: map<Id, Id>, unsorted: map<Id, seq<Id>>, grouped: map<Id, seq<Id>>)
    requires Forest(p) && PartlyGrouped(p, unsorted, p.Keys) && grouped.Keys == unsorted.Keys
    requires forall r :: r in grouped ==> Ascending(grouped[r]) && multiset(grouped[r]) == multiset(unsorted[r])
    ensures GroupedByRoot(p, grouped)
  {
    hide Root;
    forall r, x | r in grouped ensures x in grouped[r] <==> x in p && Root(p, x) == r {
      assert x in multiset(grouped[r]) <==> x in multiset(unsorted[r]);
    }
    forall r | r in grouped ensures r in p && p[r] == r && grouped[r] != [] && grouped[r][0] == r {
      assert |multiset(grouped[r])| == |multiset(unsorted[r])|;
      assert grouped[r][0] in grouped[r];
      assert r == Root(p, grouped[r][0]);
      RootStep(p, r);
      assert r in grouped[r];
    }
    forall r | r in p && p[r] == r ensures r in grouped { RootStep(p, r); }
  }

  // ---------- lists without repetition ----------

  ghost predicate AscendingBy<T>(s: seq<T>, key: T -> Id) {
    forall i, j :: 0 <= i < j < |s| ==> key(s[i]) < key(s[j])
  }

  function Self(x: Id): Id { x }

  ghost predicate Ascending(s: seq<Id>) { AscendingBy(s, Self) }

  lemma SortedAscends(s: seq<Id>)
    requires NoDuplicates(s)
    ensures Ascending(Sort(s, IdLe)) && multiset(Sort(s, IdLe)) == multiset(s)
  {
    SortSorts(s, IdLe);
    var t := Sort(s, IdLe);
    forall i, j | 0 <= i < j < |t| ensures t[i] < t[j] {
      assert IdLe(t[i], t[j]);
      if t[i] == t[j] {
        SeenTwice(t, i, j);
        assert false;
      }
    }
  }

  lemma {:induction false} AscendingUnique<T(!new)>(a: seq<T>, b: seq<T>, key: T -> Id)
    requires AscendingBy(a, key) && AscendingBy(b, key) && forall x :: x in a <==> x in b
    ensures a == b
  {
    assert a == [] || a[0] in b;
    assert b == [] || b[0] in a;
    if a != [] && b != [] {
      var m, n := |a| - 1, |b| - 1;
      assert a[m] in b && b[n] in a;
      assert a[m] == b[n];
      forall x ensures x in a[..m] <==> x in b[..n] {
        assert x in a[..m] <==> x in a && x != a[m];
        assert x in b[..n] <==> x in b && x != b[n];
      }
      AscendingUnique(a[..m], b[..n], key);
      assert a == a[..m] + [a[m]] && b == b[..n] + [b[n]];
    }
  }

  // ---------- clusters ----------

  function EdgesOf(decisions: seq<PairDecision>): Edges {
    set d | d in decisions && d.band == AutoMerge :: Edge(d.left, d.right)
  }

  // The forest's roots tell the components of the edges united so far.
  ghost predicate Represents(p: map<Id, Id>, e: Edges) {
    Forest(p) && EdgesJoined(p, e) && RootsLinked(p, e)
  }

  ghost predicate Joined(p: map<Id, Id>, a: Id, b: Id)
    requires Forest(p)
  {
    a in p && b in p && Root(p, a) == Root(p, b)
  }

  ghost predicate EdgesJoined(p: map<Id, Id>, e: Edges)
    requires Forest(p)
  {
    forall x {:trigger x in e} :: x in e ==> Joined(p, x.a, x.b)
  }

  ghost predicate RootsLinked(p: map<Id, Id>, e: Edges)
    requires Forest(p)
  {
    forall x {:trigger Root(p, x)} :: x in p ==> Linked(e, x, Root(p, x))
  }

  lemma {:induction false} ChainKeepsRoot(p: map<Id, Id>, e: Edges, c: seq<Id>)
    requires Represents(p, e) && Chain(e, c) && c[0] in p
    ensures c[|c| - 1] in p && Root(p, c[|c| - 1]) == Root(p, c[0])
    decreases |c|
  {
    hide Root, Linked;
    if |c| > 1 {
      assert Adjacent(e, c[0], c[1]);
      assert Chain(e, c[1..]) by {
        forall i | 0 <= i < |c[1..]| - 1 ensures Adjacent(e, c[1..][i], c[1..][i + 1]) {
          assert Adjacent(e, c[i + 1], c[i + 2]);
        }
      }
      ChainKeepsRoot(p, e, c[1..]);
    }
  }

  lemma RootsTellLinks(p: map<Id, Id>, e: Edges, a: Id, b: Id)
    requires Represents(p, e) && a in p
    ensures Linked(e, a, b) <==> b in p && Root(p, a) == Root(p, b)
  {
    hide Root;
    if b in p && Root(p, a) == Root(p, b) {
      LinkedBack(e, b, Root(p, b));
      LinkedOn(e, a, Root(p, a), b);
    }
    if Linked(e, a, b) {
      var c :| Chain(e, c) && c[0] == a && c[|c| - 1] == b;
      ChainKeepsRoot(p, e, c);
    }
  }

  // The root is the smallest member of its component.
  lemma RootIsSmallestMember(p: map<Id, Id>, e: Edges, a: Id, r: Id)
    requires Represents(p, e) && a in p
    ensures r == Root(p, a) <==> Linked(e, a, r) && forall b :: Linked(e, a, b) ==> r <= b
  {
    RootsTellLinks(p, e, a, Root(p, a));
    forall b | Linked(e, a, b) ensures Root(p, a) <= b { RootsTellLinks(p, e, a, b); }
  }

  ghost predicate OneMore(e: Edges, more: Edges, x: Edge) {
    forall y :: y in more <==> y in e || y == x
  }

  lemma UnionRepresents(p: map<Id, Id>, q: map<Id, Id>, e: Edges, more: Edges, l: Id, r: Id)
    requires Represents(p, e) && l in p && r in p && RootsMerged(p, q, Root(p, l), Root(p, r))
    requires OneMore(e, more, Edge(l, r))
    ensures Represents(q, more)
  {
    hide Root, EdgesJoined, RootsLinked, OneMore;
    UnionJoinsEdges(p, q, e, more, l, r);
    OneMoreHolds(e, more, Edge(l, r));
    UnionLinksRoots(p, q, e, more, l, r);
  }

  lemma OneMoreHolds(e: Edges, more: Edges, x: Edge)
    requires OneMore(e, more, x)
    ensures e <= more && x in more
  {
  }

  lemma UnionLinksRoots(p: map<Id, Id>, q: map<Id, Id>, e: Edges, more: Edges, l: Id, r: Id)
    requires Represents(p, e) && l in p && r in p && RootsMerged(p, q, Root(p, l), Root(p, r))
    requires e <= more && Edge(l, r) in more
    ensures RootsLinked(q, more)
  {
    hide Root, Linked, EdgesJoined;
    forall x {:trigger Root(q, x)} | x in q ensures Linked(more, x, Root(q, x)) {
      UnionLinksRoot(p, q, e, more, l, r, x);
    }
  }

  lemma UnionJoinsEdges(p: map<Id, Id>, q: map<Id, Id>, e: Edges, more: Edges, l: Id, r: Id)
    requires Forest(p) && EdgesJoined(p, e) && l in p && r in p && RootsMerged(p, q, Root(p, l), Root(p, r))
    requires OneMore(e, more, Edge(l, r))
    ensures EdgesJoined(q, more)
  {
    hide Root;
    forall x | x in more ensures Joined(q, x.a, x.b) {
      JoinedAfter(p, q, e, l, r, x);
    }
  }

  lemma JoinedAfter(p: map<Id, Id>, q: map<Id, Id>, e: Edges, l: Id, r: Id, x: Edge)
    requires Forest(p) && EdgesJoined(p, e) && l in p && r in p && RootsMerged(p, q, Root(p, l), Root(p, r))
    requires x in e || x == Edge(l, r)
    ensures Joined(q, x.a, x.b)
  {
    hide Root, RootsMerged, Forest;
    if x in e { StaysJoined(p, q, Root(p, l), Root(p, r), x.a, x.b); } else { GetsJoined(p, q, l, r); }
  }

  lemma StaysJoined(p: map<Id, Id>, q: map<Id, Id>, a: Id, b: Id, x: Id, y: Id)
    requires RootsMerged(p, q, a, b) && Joined(p, x, y)
    ensures Joined(q, x, y)
  {
    hide Root;
    MergedRoot(p, q, a, b, x);
    MergedRoot(p, q, a, b, y);
  }

  lemma GetsJoined(p: map<Id, Id>, q: map<Id, Id>, l: Id, r: Id)
    requires Forest(p) && l in p && r in p && RootsMerged(p, q, Root(p, l), Root(p, r))
    ensures Joined(q, l, r)
  {
    hide Root;
    MergedRoot(p, q, Root(p, l), Root(p, r), l);
    MergedRoot(p, q, Root(p, l), Root(p, r), r);
  }

  lemma MergedRoot(p: map<Id, Id>, q: map<Id, Id>, a: Id, b: Id, y: Id)
    requires RootsMerged(p, q, a, b) && y in p
    ensures y in q && Root(q, y) == if Root(p, y) == Max(a, b) then Min(a, b) else Root(p, y)
  {
  }

  lemma UnionLinksRoot(p: map<Id, Id>, q: map<Id, Id>, e: Edges, more: Edges, l: Id, r: Id, x: Id)
    requires Represents(p, e) && l in p && r in p && x in p && RootsMerged(p, q, Root(p, l), Root(p, r))
    requires e <= more && Edge(l, r) in more
    ensures x in q && Linked(more, x, Root(q, x))
  {
    hide Root, Linked;
    LinkedInMore(e, more, x, Root(p, x));
    if Root(q, x) != Root(p, x) {
      RootsGetLinked(p, e, more, l, r);
      LinkedOn(more, x, Root(p, x), Root(q, x));
    }
  }

  lemma RootsGetLinked(p: map<Id, Id>, e: Edges, more: Edges, l: Id, r: Id)
    requires Represents(p, e) && l in p && r in p && e <= more && Edge(l, r) in more
    ensures Linked(more, Root(p, l), Root(p, r)) && Linked(more, Root(p, r), Root(p, l))
  {
    hide Root, Linked;
    var a, b := Root(p, l), Root(p, r);
    assert Linked(e, l, a) && Linked(e, r, b);
    LinkedInMore(e, more, l, a);
    LinkedInMore(e, more, r, b);
    LinkedBack(more, l, a);
    LinkedByEdge(more, l, r);
    LinkedOn(more, a, l, r);
    LinkedOn(more, a, r, b);
    LinkedBack(more, a, b);
  }

  function SetOf(ids: seq<Id>): set<Id> { set x | x in ids }

  ghost predicate Injective(idOf: seq<Id> -> Id) {
    forall a, b :: idOf(a) == idOf(b) ==> a == b
  }

  function ClusterIdOf(c: Cluster): Id { c.clusterId }

  predicate ClusterLe(a: Cluster, b: Cluster) { a.clusterId <= b.clusterId }

  ghost predicate WellFormed(clusters: seq<Cluster>, ids: set<Id>, idOf: seq<Id> -> Id) {
    forall c :: c in clusters ==>
      c.members != [] && Ascending(c.members) && c.clusterId == idOf(c.members)
      && forall x :: x in c.members ==> x in ids
  }

  ghost predicate Covers(clusters: seq<Cluster>, ids: set<Id>) {
    forall x :: x in ids ==> exists c :: c in clusters && x in c.members
  }

  ghost predicate SplitByLinks(clusters: seq<Cluster>, ids: set<Id>, e: Edges) {
    forall c, a, b {:trigger c in clusters, a in c.members, b in ids} ::
      c in clusters && a in c.members && b in ids ==> (b in c.members <==> Linked(e, a, b))
  }

  // Every id is in exactly one cluster, two ids share one exactly when a chain of merges links them,
  // and the clusters are listed by their ids.
  ghost predicate IsClustering(clusters: seq<Cluster>, ids: set<Id>, e: Edges, idOf: seq<Id> -> Id) {
    WellFormed(clusters, ids, idOf) && Covers(clusters, ids) && SplitByLinks(clusters, ids, e)
      && AscendingBy(clusters, ClusterIdOf)
  }

  method MakeClusters(ids: seq<Id>, decisions: seq<PairDecision>, idOf: seq<Id> -> Id) returns (clusters: seq<Cluster>)
    requires Injective(idOf)
    requires forall d :: d in decisions && d.band == AutoMerge ==> d.left in ids && d.right in ids
    ensures IsClustering(clusters, SetOf(ids), EdgesOf(decisions), idOf)
  {
    var unionFind := new UnionFind(ids);
    assert Represents(unionFind.parent, {}) by {
      forall x {:trigger Root(unionFind.parent, x)} | x in unionFind.parent
        ensures Linked({}, x, Root(unionFind.parent, x)) { LinkedSelf({}, x); }
    }
    for i := 0 to |decisions|
      invariant unionFind.parent.Keys == SetOf(ids)
      invariant Represents(unionFind.parent, EdgesOf(decisions[..i]))
    {
      hide Represents, RootsMerged;
      var d := decisions[i];
      EdgesGrow(decisions, i);
      RepresentsForest(unionFind.parent, EdgesOf(decisions[..i]));
      if d.band == AutoMerge {
        ghost var p := unionFind.parent;
        unionFind.Union(d.left, d.right);
        UnionRepresents(p, unionFind.parent, EdgesOf(decisions[..i]), EdgesOf(decisions[..i + 1]), d.left, d.right);
        MergedKeys(p, unionFind.parent, Root(p, d.left), Root(p, d.right));
      }
    }
    assert decisions[..|decisions|] == decisions;
    ghost var p := unionFind.parent;
    var groups := unionFind.Groups();
    var unsorted := ListClusters(groups, idOf);
    clusters := Sort(unsorted, ClusterLe);
    GroupsAreClusters(p, groups, unsorted, EdgesOf(decisions), idOf);
  }

  lemma RepresentsForest(p: map<Id, Id>, e: Edges)
    requires Represents(p, e)
    ensures Forest(p)
  {
  }

  lemma MergedKeys(p: map<Id, Id>, q: map<Id, Id>, a: Id, b: Id)
    requires RootsMerged(p, q, a, b)
    ensures Forest(p) && Forest(q) && q.Keys == p.Keys
  {
  }

  lemma EdgesGrow(decisions: seq<PairDecision>, i: nat)
    requires i < |decisions|
    ensures if decisions[i].band == AutoMerge
            then OneMore(EdgesOf(decisions[..i]), EdgesOf(decisions[..i + 1]),
                         Edge(decisions[i].left, decisions[i].right))
            else EdgesOf(decisions[..i + 1]) == EdgesOf(decisions[..i])
  {
    assert decisions[..i + 1] == decisions[..i] + [decisions[i]];
  }

  ghost predicate IsGroup(c: Cluster, groups: map<Id, seq<Id>>, idOf: seq<Id> -> Id) {
    && c.members != [] && c.members[0] in groups && c.members == groups[c.members[0]]
    && c.clusterId == idOf(c.members)
  }

  // One cluster for each group, each once.
  ghost predicate Lists(clusters: seq<Cluster>, groups: map<Id, seq<Id>>, done: set<Id>, idOf: seq<Id> -> Id) {
    && NoDuplicates(clusters)
    && forall c :: c in clusters <==> IsGroup(c, groups, idOf) && c.members[0] in done
  }

  method ListClusters(groups: map<Id, seq<Id>>, idOf: seq<Id> -> Id) returns (clusters: seq<Cluster>)
    requires forall r :: r in groups ==> groups[r] != [] && groups[r][0] == r
    ensures Lists(clusters, groups, groups.Keys, idOf)
  {
    clusters := [];
    var todo := groups.Keys;
    ghost var done := {};
    while todo != {}
      invariant done + todo == groups.Keys && done !! todo
      invariant Lists(clusters, groups, done, idOf)
      decreases |todo|
    {
      var r :| r in todo;
      var c := Cluster(idOf(groups[r]), groups[r]);
      ListOneMore(clusters, groups, done, c, idOf);
      clusters := clusters + [c];
      todo, done := todo - {r}, done + {r};
    }
  }

  lemma ListOneMore(clusters: seq<Cluster>, groups: map<Id, seq<Id>>, done: set<Id>, c: Cluster, idOf: seq<Id> -> Id)
    requires Lists(clusters, groups, done, idOf) && IsGroup(c, groups, idOf) && c.members[0] !in done
    ensures Lists(clusters + [c], groups, done + {c.members[0]}, idOf)
  {
    assert c !in clusters;
    assert multiset(clusters + [c]) == multiset(clusters) + multiset{c};
    forall c2 ensures c2 in clusters + [c] <==> IsGroup(c2, groups, idOf) && c2.members[0] in done + {c.members[0]} {
      assert c2 in clusters + [c] <==> c2 in clusters || c2 == c;
      if IsGroup(c2, groups, idOf) && c2.members[0] == c.members[0] { assert c2 == c; }
    }
  }

  lemma SortedClustersAscend(unsorted: seq<Cluster>, idOf: seq<Id> -> Id)
    requires Injective(idOf) && NoDuplicates(unsorted) && forall c :: c in unsorted ==> c.clusterId == idOf(c.members)
    ensures AscendingBy(Sort(unsorted, ClusterLe), ClusterIdOf)
    ensures forall c :: c in Sort(unsorted, ClusterLe) <==> c in unsorted
  {
    var clusters := Sort(unsorted, ClusterLe);
    SortSorts(unsorted, ClusterLe);
    forall c ensures c in clusters <==> c in unsorted {
      assert c in multiset(clusters) <==> c in multiset(unsorted);
    }
    forall i, j | 0 <= i < j < |clusters| ensures clusters[i].clusterId < clusters[j].clusterId {
      assert ClusterLe(clusters[i], clusters[j]);
      assert clusters[i] in clusters && clusters[j] in clusters;
      if clusters[i].clusterId == clusters[j].clusterId {
        SeenTwice(clusters, i, j);
        assert false;
      }
    }
  }

  lemma GroupHolds(p: map<Id, Id>, groups: map<Id, seq<Id>>, e: Edges, idOf: seq<Id> -> Id, c: Cluster, a: Id, b: Id)
    requires Represents(p, e) && GroupedByRoot(p, groups) && IsGroup(c, groups, idOf) && a in c.members
    ensures a in p && (b in p ==> (b in c.members <==> Linked(e, a, b)))
  {
    hide Root, Linked;
    RootsTellLinks(p, e, a, b);
  }

  lemma GroupOf(p: map<Id, Id>, groups: map<Id, seq<Id>>, idOf: seq<Id> -> Id, x: Id)
    requires Forest(p) && GroupedByRoot(p, groups) && x in p
    ensures Root(p, x) in groups && x in groups[Root(p, x)]
    ensures IsGroup(Cluster(idOf(groups[Root(p, x)]), groups[Root(p, x)]), groups, idOf)
  {
    hide Root;
  }

  lemma GroupsCover(p: map<Id, Id>, groups: map<Id, seq<Id>>, clusters: seq<Cluster>, idOf: seq<Id> -> Id)
    requires Forest(p) && GroupedByRoot(p, groups) && forall c :: c in clusters <==> IsGroup(c, groups, idOf)
    ensures Covers(clusters, p.Keys)
  {
    hide Root, IsGroup, GroupedByRoot;
    forall x | x in p.Keys ensures exists c :: c in clusters && x in c.members {
      GroupOf(p, groups, idOf, x);
      assert Cluster(idOf(groups[Root(p, x)]), groups[Root(p, x)]) in clusters;
    }
  }

  lemma GroupsAreWellFormed(p: map<Id, Id>, groups: map<Id, seq<Id>>, clusters: seq<Cluster>, idOf: seq<Id> -> Id)
    requires Forest(p) && GroupedByRoot(p, groups) && forall r :: r in groups ==> Ascending(groups[r])
    requires forall c :: c in clusters <==> IsGroup(c, groups, idOf)
    ensures WellFormed(clusters, p.Keys, idOf)
  {
    hide Root;
  }

  ghost predicate GroupSplit(p: map<Id, Id>, e: Edges, c: Cluster) {
    forall a, b {:trigger a in c.members, b in p.Keys} :: a in c.members && b in p.Keys ==>
      (b in c.members <==> Linked(e, a, b))
  }

  lemma GroupSplits(p: map<Id, Id>, groups: map<Id, seq<Id>>, e: Edges, idOf: seq<Id> -> Id, c: Cluster)
    requires Represents(p, e) && GroupedByRoot(p, groups) && IsGroup(c, groups, idOf)
    ensures GroupSplit(p, e, c)
  {
    hide Represents, IsGroup, Linked, GroupedByRoot, Root, Forest;
    RepresentsForest(p, e);
    forall a, b {:trigger a in c.members, b in p.Keys} | a in c.members && b in p.Keys
      ensures b in c.members <==> Linked(e, a, b)
    {
      GroupHolds(p, groups, e, idOf, c, a, b);
    }
  }

  lemma GroupsSplit(p: map<Id, Id>, groups: map<Id, seq<Id>>, clusters: seq<Cluster>, e: Edges, idOf: seq<Id> -> Id)
    requires Represents(p, e) && GroupedByRoot(p, groups) && forall c :: c in clusters <==> IsGroup(c, groups, idOf)
    ensures SplitByLinks(clusters, p.Keys, e)
  {
    hide Represents, IsGroup, Linked, GroupedByRoot, Forest, Root, Injective;
    RepresentsForest(p, e);
    forall c | c in clusters ensures GroupSplit(p, e, c) { GroupSplits(p, groups, e, idOf, c); }
  }

  lemma GroupsAreClusters(p: map<Id, Id>, groups: map<Id, seq<Id>>, unsorted: seq<Cluster>, e: Edges,
                          idOf: seq<Id> -> Id)
    requires Represents(p, e) && GroupedByRoot(p, groups) && Injective(idOf)
    requires forall r :: r in groups ==> Ascending(groups[r])
    requires Lists(unsorted, groups, groups.Keys, idOf)
    ensures IsClustering(Sort(unsorted, ClusterLe), p.Keys, e, idOf)
  {
    RepresentsForest(p, e);
    hide Represents, Ascending, AscendingBy, GroupedByRoot, Covers, WellFormed, SplitByLinks, IsGroup;
    SortedClustersAscend(unsorted, idOf);
    GroupsCover(p, groups, Sort(unsorted, ClusterLe), idOf);
    GroupsAreWellFormed(p, groups, Sort(unsorted, ClusterLe), idOf);
    GroupsSplit(p, groups, Sort(unsorted, ClusterLe), e, idOf);
  }

  // ---------- what the clusters depend on ----------

  lemma {:induction false} SameCluster(a: seq<Cluster>, b: seq<Cluster>, ids: set<Id>, e: Edges, idOf: seq<Id> -> Id,
                                       c: Cluster)
    requires IsClustering(a, ids, e, idOf) && IsClustering(b, ids, e, idOf) && c in a
    ensures c in b
  {
    hide Linked;
    var x := c.members[0];
    assert x in c.members && x in ids;
    var c2 :| c2 in b && x in c2.members;
    forall y ensures y in c.members <==> y in c2.members {
      if y in ids { assert y in c.members <==> Linked(e, x, y); }
    }
    AscendingUnique(c.members, c2.members, Self);
  }

  // Only the set of ids and the set of merges matter: the clusters do not depend on any order of input.
  lemma ClusteringUnique(a: seq<Cluster>, b: seq<Cluster>, ids: set<Id>, e: Edges, idOf: seq<Id> -> Id)
    requires IsClustering(a, ids, e, idOf) && IsClustering(b, ids, e, idOf)
    ensures a == b
  {
    hide IsClustering;
    forall c ensures c in a <==> c in b {
      if c in a { SameCluster(a, b, ids, e, idOf, c); }
      if c in b { SameCluster(b, a, ids, e, idOf, c); }
    }
    ClusteringAscends(a, ids, e, idOf);
    ClusteringAscends(b, ids, e, idOf);
    AscendingUnique(a, b, ClusterIdOf);
  }

  lemma ClusteringAscends(a: seq<Cluster>, ids: set<Id>, e: Edges, idOf: seq<Id> -> Id)
    requires IsClustering(a, ids, e, idOf)
    ensures AscendingBy(a, ClusterIdOf)
  {
  }

  // With more merges each cluster lies inside one of the coarser clusters.
  lemma MoreMergesCoarsen(a: seq<Cluster>, b: seq<Cluster>, ids: set<Id>, e: Edges, more: Edges, idOf: seq<Id> -> Id,
                          c: Cluster)
    requires IsClustering(a, ids, e, idOf) && IsClustering(b, ids, more, idOf) && e <= more && c in a
    ensures exists c2 :: c2 in b && forall x :: x in c.members ==> x in c2.members
  {
    var x := c.members[0];
    assert x in c.members && x in ids;
    var c2 :| c2 in b && x in c2.members;
    forall y | y in c.members ensures y in c2.members {
      assert Linked(e, x, y);
      LinkedInMore(e, more, x, y);
    }
  }
}
