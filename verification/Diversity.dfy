// services/ranking/service.py: the diversity caps, a greedy filter with three simultaneous counters.
module Diversity {
  import opened Prelude

  datatype Caps = Caps(perBuilding: int, perNeighborhood: int, perSource: int)

  datatype Listing = Listing(building: string, neighborhood: string, source: string)

  type Lookup = map<Id, Listing>

  datatype Dimension = Building | Neighborhood | Source

  function Value(l: Listing, d: Dimension): string {
    match d case Building => l.building case Neighborhood => l.neighborhood case Source => l.source
  }

  function Cap(caps: Caps, d: Dimension): int {
    match d case Building => caps.perBuilding case Neighborhood => caps.perNeighborhood case Source => caps.perSource
  }

  // How many kept listings have this value; a listing that is not in the repository counts for nothing.
  function Count(kept: seq<Id>, listings: Lookup, d: Dimension, v: string): nat {
    if kept == [] then 0
    else
      var last := kept[|kept| - 1];
      Count(kept[..|kept| - 1], listings, d, v) + if last in listings && Value(listings[last], d) == v then 1 else 0
  }

  predicate Saturated(kept: seq<Id>, listings: Lookup, caps: Caps, d: Dimension, v: string) {
    Count(kept, listings, d, v) >= Cap(caps, d)
  }

  // The item may follow the kept ones: no cap of its own is saturated by them.
  ghost predicate Admissible(kept: seq<Id>, listings: Lookup, caps: Caps, item: Id) {
    item in listings ==> forall d :: !Saturated(kept, listings, caps, d, Value(listings[item], d))
  }

  ghost function Greedy(items: seq<Id>, listings: Lookup, caps: Caps): seq<Id> {
    if items == [] then []
    else
      var kept, item := Greedy(items[..|items| - 1], listings, caps), items[|items| - 1];
      if Admissible(kept, listings, caps, item) then kept + [item] else kept
  }

  // The counters agree with what has been kept.
  ghost predicate Counts(counters: map<string, nat>, kept: seq<Id>, listings: Lookup, d: Dimension) {
    forall v :: Count(kept, listings, d, v) == if v in counters then counters[v] else 0
  }

  lemma CountAppend(kept: seq<Id>, item: Id, listings: Lookup, d: Dimension, v: string)
    ensures Count(kept + [item], listings, d, v) ==
            Count(kept, listings, d, v) + if item in listings && Value(listings[item], d) == v then 1 else 0
  {
    assert (kept + [item])[..|kept|] == kept;
  }

  lemma CountsNext(counters: map<string, nat>, kept: seq<Id>, item: Id, listings: Lookup, d: Dimension)
    requires Counts(counters, kept, listings, d)
    ensures item in listings ==>
              var v := Value(listings[item], d);
              Counts(counters[v := (if v in counters then counters[v] else 0) + 1], kept + [item], listings, d)
    ensures item !in listings ==> Counts(counters, kept + [item], listings, d)
  {
    forall v ensures Count(kept + [item], listings, d, v) ==
                     Count(kept, listings, d, v) + if item in listings && Value(listings[item], d) == v then 1 else 0 {
      CountAppend(kept, item, listings, d, v);
    }
  }

  lemma AdmissibleIff(kept: seq<Id>, listings: Lookup, caps: Caps, item: Id)
    requires item in listings
    ensures var l := listings[item];
            Admissible(kept, listings, caps, item) <==>
            !Saturated(kept, listings, caps, Building, l.building) &&
            !Saturated(kept, listings, caps, Neighborhood, l.neighborhood) &&
            !Saturated(kept, listings, caps, Source, l.source)
  {
    hide Saturated;
    var l := listings[item];
    assert Value(l, Building) == l.building && Value(l, Neighborhood) == l.neighborhood && Value(l, Source) == l.source;
  }

  function SetDefault(counters: map<string, nat>, v: string): map<string, nat> {
    if v in counters then counters else counters[v := 0]
  }

  lemma SetDefaultCounts(counters: map<string, nat>, kept: seq<Id>, listings: Lookup, d: Dimension, v: string)
    requires Counts(counters, kept, listings, d)
    ensures Counts(SetDefault(counters, v), kept, listings, d)
    ensures v in SetDefault(counters, v) && SetDefault(counters, v)[v] == Count(kept, listings, d, v)
  {
    assert Count(kept, listings, d, v) == if v in counters then counters[v] else 0;
  }

  // Once its three counters are present, they tell whether a listing is admissible, and keeping it adds one to each.
  lemma CountersTell(buildings: map<string, nat>, neighborhoods: map<string, nat>, sources: map<string, nat>,
                     kept: seq<Id>, listings: Lookup, caps: Caps, item: Id)
    requires item in listings
    requires Counts(buildings, kept, listings, Building)
    requires Counts(neighborhoods, kept, listings, Neighborhood)
    requires Counts(sources, kept, listings, Source)
    requires listings[item].building in buildings
    requires listings[item].neighborhood in neighborhoods
    requires listings[item].source in sources
    ensures var l := listings[item];
            && (Admissible(kept, listings, caps, item) <==>
                && buildings[l.building] < caps.perBuilding
                && neighborhoods[l.neighborhood] < caps.perNeighborhood
                && sources[l.source] < caps.perSource)
            && Counts(buildings[l.building := buildings[l.building] + 1], kept + [item], listings, Building)
            && Counts(neighborhoods[l.neighborhood := neighborhoods[l.neighborhood] + 1],
                      kept + [item], listings, Neighborhood)
            && Counts(sources[l.source := sources[l.source] + 1], kept + [item], listings, Source)
  {
    hide Count, Admissible;
    var l := listings[item];
    AdmissibleIff(kept, listings, caps, item);
    CountsNext(buildings, kept, item, listings, Building);
    CountsNext(neighborhoods, kept, item, listings, Neighborhood);
    CountsNext(sources, kept, item, listings, Source);
    assert Count(kept, listings, Building, l.building) == buildings[l.building];
    assert Count(kept, listings, Neighborhood, l.neighborhood) == neighborhoods[l.neighborhood];
    assert Count(kept, listings, Source, l.source) == sources[l.source];
  }

  method ApplyDiversityCaps(scored: seq<Id>, listings: Lookup, caps: Caps) returns (final: seq<Id>)
    ensures final == Greedy(scored, listings, caps)
    ensures TakenGreedily(scored, listings, caps, final)
  {
    hide TakenGreedily, Count, Admissible;
    var buildings: map<string, nat>, neighborhoods: map<string, nat>, sources: map<string, nat> := map[], map[], map[];
    final := [];
    NoCounts(listings);
    for i := 0 to |scored|
      invariant final == Greedy(scored[..i], listings, caps)
      invariant Counts(buildings, final, listings, Building)
      invariant Counts(neighborhoods, final, listings, Neighborhood)
      invariant Counts(sources, final, listings, Source)
    {
      hide Counts, Greedy, SetDefault;
      var item := scored[i];
      GreedyNext(scored, i, listings, caps);
      if item !in listings {
        AbsentIsAdmissible(final, listings, caps, item);
        CountsNext(buildings, final, item, listings, Building);
        CountsNext(neighborhoods, final, item, listings, Neighborhood);
        CountsNext(sources, final, item, listings, Source);
        final := final + [item];
      } else {
        var l := listings[item];
        SetDefaultCounts(buildings, final, listings, Building, l.building);
        SetDefaultCounts(neighborhoods, final, listings, Neighborhood, l.neighborhood);
        SetDefaultCounts(sources, final, listings, Source, l.source);
        buildings := SetDefault(buildings, l.building);
        neighborhoods := SetDefault(neighborhoods, l.neighborhood);
        sources := SetDefault(sources, l.source);
        CountersTell(buildings, neighborhoods, sources, final, listings, caps, item);
        if buildings[l.building] >= caps.perBuilding { continue; }
        if neighborhoods[l.neighborhood] >= caps.perNeighborhood { continue; }
        if sources[l.source] >= caps.perSource { continue; }
        buildings := buildings[l.building := buildings[l.building] + 1];
        neighborhoods := neighborhoods[l.neighborhood := neighborhoods[l.neighborhood] + 1];
        sources := sources[l.source := sources[l.source] + 1];
        final := final + [item];
      }
    }
    assert scored[..|scored|] == scored;
    GreedyIsTaken(scored, listings, caps);
  }

  lemma NoCounts(listings: Lookup)
    ensures forall d: Dimension :: Counts(map[], [], listings, d)
  {
  }

  lemma AbsentIsAdmissible(kept: seq<Id>, listings: Lookup, caps: Caps, item: Id)
    requires item !in listings
    ensures Admissible(kept, listings, caps, item)
  {
  }

  lemma GreedyNext(items: seq<Id>, i: nat, listings: Lookup, caps: Caps)
    requires i < |items|
    ensures Greedy(items[..i + 1], listings, caps) ==
            var kept := Greedy(items[..i], listings, caps);
            if Admissible(kept, listings, caps, items[i]) then kept + [items[i]] else kept
  {
    assert items[..i + 1][..i] == items[..i];
  }

  // ---------- the same in the listings' own fields ----------

  // How many of these are in the repository with this value.
  ghost function Having(kept: seq<Id>, listings: Lookup, value: Listing -> string, v: string): nat {
    if kept == [] then 0
    else
      (if kept[0] in listings && value(listings[kept[0]]) == v then 1 else 0) + Having(kept[1..], listings, value, v)
  }

  const BUILDING: Listing -> string := (l: Listing) => l.building
  const NEIGHBORHOOD: Listing -> string := (l: Listing) => l.neighborhood
  const SOURCE: Listing -> string := (l: Listing) => l.source

  lemma {:induction false} HavingAppend(kept: seq<Id>, item: Id, listings: Lookup, value: Listing -> string, v: string)
    ensures Having(kept + [item], listings, value, v) ==
            Having(kept, listings, value, v) + if item in listings && value(listings[item]) == v then 1 else 0
  {
    if kept == [] {
      assert [item][1..] == [] && [] + [item] == [item];
    } else {
      HavingAppend(kept[1..], item, listings, value, v);
      assert (kept + [item])[1..] == kept[1..] + [item];
    }
  }

  lemma {:induction false} CountMeans(kept: seq<Id>, listings: Lookup, v: string)
    ensures Count(kept, listings, Building, v) == Having(kept, listings, BUILDING, v)
    ensures Count(kept, listings, Neighborhood, v) == Having(kept, listings, NEIGHBORHOOD, v)
    ensures Count(kept, listings, Source, v) == Having(kept, listings, SOURCE, v)
  {
    if kept != [] {
      var init, last := kept[..|kept| - 1], kept[|kept| - 1];
      CountMeans(init, listings, v);
      assert kept == init + [last];
      HavingAppend(init, last, listings, BUILDING, v);
      HavingAppend(init, last, listings, NEIGHBORHOOD, v);
      HavingAppend(init, last, listings, SOURCE, v);
    }
  }

  // An item is kept after these exactly when none of its building, neighborhood and source has reached its cap among
  // them.
  ghost predicate Fits(kept: seq<Id>, listings: Lookup, caps: Caps, item: Id) {
    item !in listings ||
      (&& Having(kept, listings, BUILDING, listings[item].building) < caps.perBuilding
       && Having(kept, listings, NEIGHBORHOOD, listings[item].neighborhood) < caps.perNeighborhood
       && Having(kept, listings, SOURCE, listings[item].source) < caps.perSource)
  }

  lemma FitsIff(kept: seq<Id>, listings: Lookup, caps: Caps, item: Id)
    ensures Fits(kept, listings, caps, item) <==> Admissible(kept, listings, caps, item)
  {
    if item in listings {
      AdmissibleIff(kept, listings, caps, item);
      CountMeans(kept, listings, listings[item].building);
      CountMeans(kept, listings, listings[item].neighborhood);
      CountMeans(kept, listings, listings[item].source);
    }
  }

  // The result is taken item by item, in order, and each is kept exactly when it fits what is kept so far.
  ghost predicate TakenGreedily(scored: seq<Id>, listings: Lookup, caps: Caps, final: seq<Id>) {
    if scored == [] then final == []
    else
      var item, init := scored[|scored| - 1], scored[..|scored| - 1];
      || (&& final != []
          && final[|final| - 1] == item
          && Fits(final[..|final| - 1], listings, caps, item)
          && TakenGreedily(init, listings, caps, final[..|final| - 1]))
      || (!Fits(final, listings, caps, item) && TakenGreedily(init, listings, caps, final))
  }

  lemma {:induction false} GreedyIsTaken(scored: seq<Id>, listings: Lookup, caps: Caps)
    ensures TakenGreedily(scored, listings, caps, Greedy(scored, listings, caps))
  {
    hide Fits, Admissible;
    if scored != [] {
      var init, item := scored[..|scored| - 1], scored[|scored| - 1];
      var kept := Greedy(init, listings, caps);
      GreedyIsTaken(init, listings, caps);
      FitsIff(kept, listings, caps, item);
      assert (kept + [item])[..|kept|] == kept;
    }
  }

  // No building, neighborhood or source is kept more often than its cap.
  lemma KeepsCaps(scored: seq<Id>, listings: Lookup, caps: Caps, v: string)
    ensures var final := Greedy(scored, listings, caps);
            && Having(final, listings, BUILDING, v) <= (if caps.perBuilding > 0 then caps.perBuilding else 0)
            && Having(final, listings, NEIGHBORHOOD, v) <=
                 (if caps.perNeighborhood > 0 then caps.perNeighborhood else 0)
            && Having(final, listings, SOURCE, v) <= (if caps.perSource > 0 then caps.perSource else 0)
  {
    CountMeans(Greedy(scored, listings, caps), listings, v);
    CapsHold(scored, listings, caps, Building, v);
    CapsHold(scored, listings, caps, Neighborhood, v);
    CapsHold(scored, listings, caps, Source, v);
  }

  // ---------- what the filter guarantees ----------

  // No value is kept more often than its cap.
  lemma {:induction false} CapsHold(items: seq<Id>, listings: Lookup, caps: Caps, d: Dimension, v: string)
    ensures Count(Greedy(items, listings, caps), listings, d, v) <= Max(0, Cap(caps, d))
  {
    if items != [] {
      var init, item := items[..|items| - 1], items[|items| - 1];
      var kept := Greedy(init, listings, caps);
      CapsHold(init, listings, caps, d, v);
      CountAppend(kept, item, listings, d, v);
    }
  }

  // Filtering a prefix gives a prefix of the result.
  lemma {:induction false} GreedyOfPrefix(items: seq<Id>, n: nat, listings: Lookup, caps: Caps)
    requires n <= |items|
    ensures Greedy(items[..n], listings, caps) <= Greedy(items, listings, caps)
    decreases |items| - n
  {
    if n < |items| {
      GreedyNext(items, n, listings, caps);
      GreedyOfPrefix(items, n + 1, listings, caps);
    } else {
      assert items[..n] == items;
    }
  }

  // And every prefix of the result is the result for a prefix: cutting to a limit after filtering loses nothing.
  lemma {:induction false} CutComesFromPrefix(items: seq<Id>, limit: nat, listings: Lookup, caps: Caps) returns (n: nat)
    requires limit <= |Greedy(items, listings, caps)|
    ensures n <= |items| && Greedy(items[..n], listings, caps) == Greedy(items, listings, caps)[..limit]
  {
    var all := Greedy(items, listings, caps);
    if limit == |all| {
      n := |items|;
      assert items[..n] == items && all[..limit] == all;
    } else {
      var init := items[..|items| - 1];
      GreedyOfPrefix(items, |items| - 1, listings, caps);
      n := CutComesFromPrefix(init, limit, listings, caps);
      assert init[..n] == items[..n];
    }
  }

  lemma {:induction false} Idempotent(items: seq<Id>, listings: Lookup, caps: Caps)
    ensures Greedy(Greedy(items, listings, caps), listings, caps) == Greedy(items, listings, caps)
  {
    if items != [] {
      var init, item := items[..|items| - 1], items[|items| - 1];
      Idempotent(init, listings, caps);
      var kept := Greedy(init, listings, caps);
      assert (kept + [item])[..|kept|] == kept;
    }
  }

  // ---------- the greedy subsequence is unique ----------

  function Select(items: seq<Id>, keep: seq<bool>): seq<Id>
    requires |keep| == |items|
  {
    if items == [] then []
    else Select(items[..|items| - 1], keep[..|items| - 1]) + if keep[|items| - 1] then [items[|items| - 1]] else []
  }

  // An item is kept exactly when it is admissible after those kept before it; so a dropped item has a cap that they
  // saturate.
  ghost predicate KeepsGreedily(items: seq<Id>, keep: seq<bool>, listings: Lookup, caps: Caps) {
    && |keep| == |items|
    && forall i :: 0 <= i < |items| ==>
         (keep[i] <==> Admissible(Select(items[..i], keep[..i]), listings, caps, items[i]))
  }

  lemma {:induction false} GreedyIff(items: seq<Id>, keep: seq<bool>, listings: Lookup, caps: Caps)
    requires KeepsGreedily(items, keep, listings, caps)
    ensures Select(items, keep) == Greedy(items, listings, caps)
  {
    hide Admissible;
    if items != [] {
      var n := |items| - 1;
      assert KeepsGreedily(items[..n], keep[..n], listings, caps) by {
        forall i | 0 <= i < n
          ensures keep[..n][i] <==>
                  Admissible(Select(items[..n][..i], keep[..n][..i]), listings, caps, items[..n][i])
        {
          assert items[..n][..i] == items[..i] && keep[..n][..i] == keep[..i];
        }
      }
      GreedyIff(items[..n], keep[..n], listings, caps);
    }
  }

  lemma {:induction false} GreedyExists(items: seq<Id>, listings: Lookup, caps: Caps) returns (keep: seq<bool>)
    ensures KeepsGreedily(items, keep, listings, caps) && Select(items, keep) == Greedy(items, listings, caps)
  {
    hide Admissible;
    if items == [] {
      keep := [];
    } else {
      var n := |items| - 1;
      var before := GreedyExists(items[..n], listings, caps);
      keep := before + [Admissible(Select(items[..n], before), listings, caps, items[n])];
      assert keep[..n] == before;
      forall i | 0 <= i < |items|
        ensures keep[i] <==> Admissible(Select(items[..i], keep[..i]), listings, caps, items[i])
      {
        if i < n { assert items[..n][..i] == items[..i] && keep[..i] == before[..i]; }
      }
    }
  }
}
