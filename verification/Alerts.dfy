// services/alerts: the batched matcher and the bounded-attempt dispatch protocol.
module Alerts {
  import opened Prelude
  import opened Sorting

  type Time = int

  const NO_ID: Id := 0  // the empty string

  datatype ListingChange = ListingChange(changeId: Id, listingId: Id, changedAt: Time)

  datatype MatchStatus = BeforeSince | InvalidChange | ListingMissing | Filtered | Matched

  datatype MatchLogEntry = MatchLogEntry(changeId: Id, listingId: Id, specId: Id, status: MatchStatus, createdAt: Time)

  datatype AlertKey = AlertKey(specId: Id, changeId: Id)

  datatype AlertRecord = AlertRecord(alertId: Id, specId: Id, listingId: Id, changeId: Id, createdAt: Time)

  predicate ChangeLe(a: ListingChange, b: ListingChange) {
    a.changedAt < b.changedAt || (a.changedAt == b.changedAt && a.changeId <= b.changeId)
  }

  // ---------- what a run examines and adds ----------

  // The branch a change takes. listings is the repository, passes the verdict of the hard constraints.
  function Classify(c: ListingChange, since: Time, listings: set<Id>, passes: Id -> bool): MatchStatus {
    if c.changedAt < since then BeforeSince
    else if c.changeId == NO_ID || c.listingId == NO_ID then InvalidChange
    else if c.listingId !in listings then ListingMissing
    else if !passes(c.listingId) then Filtered
    else Matched
  }

  datatype Query = Query(since: Time, listings: set<Id>, passes: Id -> bool)

  predicate Matches(q: Query, c: ListingChange) { Classify(c, q.since, q.listings, q.passes) == Matched }

  // The ids of the matching changes, in order.
  function MatchIds(q: Query, changes: seq<ListingChange>): seq<Id> {
    if changes == [] then []
    else MatchIds(q, changes[..|changes| - 1]) +
         if Matches(q, changes[|changes| - 1]) then [changes[|changes| - 1].changeId] else []
  }

  function IdsOf(s: seq<Id>): set<Id> { set x | x in s }

  // How many of these ids were not known.
  function Without(s: seq<Id>, known: set<Id>): nat { |IdsOf(s) - known| }

  ghost predicate DistinctChanges(changes: seq<ListingChange>) {
    forall i, j :: 0 <= i < j < |changes| ==> changes[i].changeId != changes[j].changeId
  }

  // The changes one run has examined when it stops: it stops after a match once enough alerts are new, or at the end.
  ghost predicate StopsAt(q: Query, changes: seq<ListingChange>, known: set<Id>, limit: int, n: nat) {
    && n <= |changes|
    && (n < |changes| ==> n > 0 && Matches(q, changes[n - 1]) && Without(MatchIds(q, changes[..n]), known) >= limit)
    && (forall m :: 0 < m < n && Matches(q, changes[m - 1]) ==> Without(MatchIds(q, changes[..m]), known) < limit)
  }

  // The alerts of one spec.
  function AlertsOf(byKey: map<AlertKey, Id>, specId: Id): set<Id> {
    set k | k in byKey && k.specId == specId :: k.changeId
  }

  // The deterministic id of an alert is never empty, and tells the spec and the change.
  ghost predicate GoodIds(idOf: AlertKey -> Id) {
    (forall k :: idOf(k) != NO_ID) && forall a, b :: idOf(a) == idOf(b) ==> a == b
  }

  ghost predicate Filed(id: Id, r: AlertRecord, byKey: map<AlertKey, Id>, idOf: AlertKey -> Id) {
    r.alertId == id && AlertKey(r.specId, r.changeId) in byKey && idOf(AlertKey(r.specId, r.changeId)) == id
  }

  // What an alert repository holds.
  datatype Memory = Memory(alerts: map<Id, AlertRecord>, byKey: map<AlertKey, Id>, matchLog: seq<MatchLogEntry>)

  class AlertRepository {
    var alerts: map<Id, AlertRecord>
    var byKey: map<AlertKey, Id>
    var matchLog: seq<MatchLogEntry>
    const idOf: AlertKey -> Id  // the deterministic alert id

    ghost predicate Valid()
      reads this
    {
      && GoodIds(idOf)
      && (forall k {:trigger byKey[k]} :: k in byKey ==> byKey[k] == idOf(k) && byKey[k] in alerts)
      && (forall a {:trigger alerts[a]} :: a in alerts ==> Filed(a, alerts[a], byKey, idOf))
    }

    function View(): Memory
      reads this
    {
      Memory(alerts, byKey, matchLog)
    }

    constructor (idOf: AlertKey -> Id)
      requires GoodIds(idOf)
      ensures Valid() && byKey == map[] && matchLog == [] && this.idOf == idOf
    {
      this.idOf := idOf;
      alerts, byKey, matchLog := map[], map[], [];
    }

    // At most one alert for a spec and a change; a second request returns the first alert unchanged.
    method Add(specId: Id, listingId: Id, changeId: Id, createdAt: Time) returns (record: AlertRecord, isNew: bool)
      requires Valid()
      modifies this`alerts, this`byKey
      ensures Valid()
      ensures var k := AlertKey(specId, changeId);
              && isNew == (k !in old(byKey))
              && byKey == old(byKey)[k := idOf(k)]
              && record.alertId == idOf(k) && record.specId == specId && record.changeId == changeId
              && alerts == old(alerts)[idOf(k) := record]
              && (isNew ==> record == AlertRecord(idOf(k), specId, listingId, changeId, createdAt))
              && (!isNew ==> alerts == old(alerts))
    {
      var key := AlertKey(specId, changeId);
      if key in byKey {
        return alerts[byKey[key]], false;
      }
      record := AlertRecord(idOf(key), specId, listingId, changeId, createdAt);
      alerts := alerts[record.alertId := record];
      byKey := byKey[key := record.alertId];
      isNew := true;
    }

    method RecordMatch(entry: MatchLogEntry)
      modifies this`matchLog
      ensures matchLog == old(matchLog) + [entry]
    {
      matchLog := matchLog + [entry];
    }
  }

  function EntriesFor(q: Query, specId: Id, now: Time, changes: seq<ListingChange>): seq<MatchLogEntry> {
    seq(|changes|, i requires 0 <= i < |changes| =>
      MatchLogEntry(changes[i].changeId, changes[i].listingId, specId,
                    Classify(changes[i], q.since, q.listings, q.passes), now))
  }

  // What a run leaves behind after examining the first n of the sorted changes.
  ghost predicate Examined(q: Query, specId: Id, sorted: seq<ListingChange>, n: nat, before: map<AlertKey, Id>,
                           after: map<AlertKey, Id>, created: int)
    requires n <= |sorted|
  {
    && AlertsOf(after, specId) == AlertsOf(before, specId) + IdsOf(MatchIds(q, sorted[..n]))
    && (forall k: AlertKey :: k.specId != specId ==> (k in after <==> k in before))
    && created == Without(MatchIds(q, sorted[..n]), AlertsOf(before, specId))
  }

  // The alert of a matching change.
  function AlertFor(specId: Id, c: ListingChange, now: Time, idOf: AlertKey -> Id): AlertRecord {
    AlertRecord(idOf(AlertKey(specId, c.changeId)), specId, c.listingId, c.changeId, now)
  }

  // No alert is changed, and the new ones are alerts of matching changes among the first n.
  ghost predicate Filled(q: Query, specId: Id, sorted: seq<ListingChange>, n: nat, now: Time, idOf: AlertKey -> Id,
                         before: map<Id, AlertRecord>, after: map<Id, AlertRecord>)
    requires n <= |sorted|
  {
    && (forall a :: a in before ==> a in after && after[a] == before[a])
    && (forall a :: a in after && a !in before ==>
          exists i :: 0 <= i < n && Matches(q, sorted[i]) && after[a] == AlertFor(specId, sorted[i], now, idOf))
  }

  lemma FilledNext(q: Query, specId: Id, sorted: seq<ListingChange>, i: nat, now: Time, idOf: AlertKey -> Id,
                   before: map<Id, AlertRecord>, middle: map<Id, AlertRecord>, after: map<Id, AlertRecord>)
    requires i < |sorted| && Filled(q, specId, sorted, i, now, idOf, before, middle)
    requires var r := AlertFor(specId, sorted[i], now, idOf);
             after == middle || (Matches(q, sorted[i]) && r.alertId !in middle && after == middle[r.alertId := r])
    ensures Filled(q, specId, sorted, i + 1, now, idOf, before, after)
  {
    hide Matches, AlertFor;
  }

  // One turn of the loop: the log entry, and for a match the alert, unless the spec has one for this change.
  ghost predicate Turned(q: Query, specId: Id, c: ListingChange, now: Time, idOf: AlertKey -> Id, m: Memory, m': Memory,
                         isNew: bool) {
    var k, r := AlertKey(specId, c.changeId), AlertFor(specId, c, now, idOf);
    && m'.byKey == (if Matches(q, c) then m.byKey[k := idOf(k)] else m.byKey)
    && isNew == (Matches(q, c) && k !in m.byKey)
    && m'.alerts == (if isNew then m.alerts[r.alertId := r] else m.alerts)
    && (isNew ==> r.alertId !in m.alerts)
    && m'.matchLog == m.matchLog +
         [MatchLogEntry(c.changeId, c.listingId, specId, Classify(c, q.since, q.listings, q.passes), now)]
  }

  method Examine(repository: AlertRepository, q: Query, specId: Id, c: ListingChange, now: Time) returns (isNew: bool)
    requires repository.Valid()
    modifies repository
    ensures repository.Valid()
    ensures Turned(q, specId, c, now, repository.idOf, old(repository.View()), repository.View(), isNew)
  {
    isNew := false;
    var status := Classify(c, q.since, q.listings, q.passes);
    if status == Matched {
      var _, added := repository.Add(specId, c.listingId, c.changeId, now);
      isNew := added;
    }
    repository.RecordMatch(MatchLogEntry(c.changeId, c.listingId, specId, status, now));
  }

  // The work of a run that has examined the first n of the sorted changes.
  ghost predicate Done(q: Query, specId: Id, sorted: seq<ListingChange>, n: nat, now: Time, idOf: AlertKey -> Id,
                       m: Memory, m': Memory, created: int)
  {
    && n <= |sorted|
    && Examined(q, specId, sorted, n, m.byKey, m'.byKey, created)
    && Filled(q, specId, sorted, n, now, idOf, m.alerts, m'.alerts)
    && m'.matchLog == m.matchLog + EntriesFor(q, specId, now, sorted[..n])
  }

  lemma DoneNext(q: Query, specId: Id, sorted: seq<ListingChange>, i: nat, now: Time, idOf: AlertKey -> Id,
                 m: Memory, m': Memory, m'': Memory, created: int, isNew: bool)
    requires i < |sorted| && Done(q, specId, sorted, i, now, idOf, m, m', created)
    requires Turned(q, specId, sorted[i], now, idOf, m', m'', isNew)
    ensures Done(q, specId, sorted, i + 1, now, idOf, m, m'', created + if isNew then 1 else 0)
  {
    hide Examined, EntriesFor, Matches, Filled, Classify, AlertFor;
    ExamineNext(q, specId, sorted, i, m.byKey, m'.byKey, created, idOf(AlertKey(specId, sorted[i].changeId)));
    LogNext(q, specId, now, sorted, i);
    FilledNext(q, specId, sorted, i, now, idOf, m.alerts, m'.alerts, m''.alerts);
  }

  // ---------- the same in the changes' own fields ----------

  // A change gets an alert when it is recent enough, names itself and a listing of the repository, and that listing
  // passes the hard constraints.
  ghost predicate Wanted(q: Query, c: ListingChange) {
    q.since <= c.changedAt && c.changeId != NO_ID && c.listingId != NO_ID && c.listingId in q.listings
      && q.passes(c.listingId)
  }

  // The log tells the first of these tests that a change fails.
  ghost predicate VerdictIs(q: Query, c: ListingChange, status: MatchStatus) {
    match status
    case BeforeSince => c.changedAt < q.since
    case InvalidChange => q.since <= c.changedAt && (c.changeId == NO_ID || c.listingId == NO_ID)
    case ListingMissing =>
      q.since <= c.changedAt && c.changeId != NO_ID && c.listingId != NO_ID && c.listingId !in q.listings
    case Filtered =>
      q.since <= c.changedAt && c.changeId != NO_ID && c.listingId != NO_ID && c.listingId in q.listings
      && !q.passes(c.listingId)
    case Matched => Wanted(q, c)
  }

  lemma ClassifyMeans(q: Query, c: ListingChange)
    ensures VerdictIs(q, c, Classify(c, q.since, q.listings, q.passes)) && (Matches(q, c) <==> Wanted(q, c))
  {
  }

  // c is examined before d.
  ghost predicate Earlier(c: ListingChange, d: ListingChange) {
    c.changedAt < d.changedAt || (c.changedAt == d.changedAt && c.changeId <= d.changeId)
  }

  ghost predicate InTimeOrder(changes: seq<ListingChange>) {
    forall i, j :: 0 <= i < j < |changes| ==> Earlier(changes[i], changes[j])
  }

  lemma SortsByTime(changes: seq<ListingChange>)
    ensures InTimeOrder(Sort(changes, ChangeLe)) && multiset(Sort(changes, ChangeLe)) == multiset(changes)
    ensures |Sort(changes, ChangeLe)| == |changes|
    ensures forall c :: c in Sort(changes, ChangeLe) <==> c in changes
  {
    ChangeLeIsTotalPreorder();
    SortSorts(changes, ChangeLe);
    var s := Sort(changes, ChangeLe);
    forall i, j | 0 <= i < j < |s| ensures Earlier(s[i], s[j]) { assert ChangeLe(s[i], s[j]); }
    forall c ensures c in s <==> c in changes { assert c in multiset(s) <==> c in multiset(changes); }
  }

  lemma {:induction false} MatchIdsMean(q: Query, changes: seq<ListingChange>, x: Id)
    ensures x in MatchIds(q, changes) <==> exists c :: c in changes && c.changeId == x && Wanted(q, c)
  {
    hide Matches, Wanted;
    if changes != [] {
      var init, last := changes[..|changes| - 1], changes[|changes| - 1];
      MatchIdsMean(q, init, x);
      ClassifyMeans(q, last);
      assert changes == init + [last];
    }
  }

  // What a run that stops after n changes leaves behind: an alert for each wanted change among them, made out to that
  // change unless the spec had one, and a log entry for each of them; it stops early only at a wanted change with the
  // limit reached.
  ghost predicate RunsAs(q: Query, specId: Id, sorted: seq<ListingChange>, n: nat, now: Time, idOf: AlertKey -> Id,
                         limit: int, m: Memory, m': Memory, created: int) {
    && n <= |sorted| && (n < |sorted| ==> n > 0 && Wanted(q, sorted[n - 1]) && limit <= created)
    && (forall x {:trigger AlertKey(specId, x)} :: AlertKey(specId, x) in m'.byKey <==>
          AlertKey(specId, x) in m.byKey || exists c :: c in sorted[..n] && c.changeId == x && Wanted(q, c))
    && (forall a :: a in m.alerts ==> a in m'.alerts && m'.alerts[a] == m.alerts[a])
    && (forall a :: a in m'.alerts && a !in m.alerts ==>
          exists c :: c in sorted[..n] && Wanted(q, c)
                      && m'.alerts[a] == AlertRecord(idOf(AlertKey(specId, c.changeId)), specId, c.listingId,
                                                     c.changeId, now))
    && |m'.matchLog| == |m.matchLog| + n && m.matchLog <= m'.matchLog
    && (forall i :: 0 <= i < n ==> LoggedAs(q, specId, sorted[i], now, m'.matchLog[|m.matchLog| + i]))
  }

  ghost predicate LoggedAs(q: Query, specId: Id, c: ListingChange, now: Time, e: MatchLogEntry) {
    && e.changeId == c.changeId && e.listingId == c.listingId && e.specId == specId && e.createdAt == now
    && VerdictIs(q, c, e.status)
  }

  lemma AlertsOfMean(byKey: map<AlertKey, Id>, specId: Id, x: Id)
    ensures x in AlertsOf(byKey, specId) <==> AlertKey(specId, x) in byKey
  {
    if x in AlertsOf(byKey, specId) {
      var k :| k in byKey && k.specId == specId && k.changeId == x;
      assert k == AlertKey(specId, x);
    }
  }

  lemma RunMeans(q: Query, specId: Id, sorted: seq<ListingChange>, n: nat, now: Time, idOf: AlertKey -> Id, limit: int,
                 m: Memory, m': Memory, created: int)
    requires StopsAt(q, sorted, AlertsOf(m.byKey, specId), limit, n)
             && Done(q, specId, sorted, n, now, idOf, m, m', created)
    ensures RunsAs(q, specId, sorted, n, now, idOf, limit, m, m', created)
  {
    hide Matches, Wanted, MatchIds, AlertsOf, Without, Classify, VerdictIs, AlertFor;
    if n < |sorted| {
      ClassifyMeans(q, sorted[n - 1]);
    }
    forall x {:trigger AlertKey(specId, x)} ensures AlertKey(specId, x) in m'.byKey <==>
      AlertKey(specId, x) in m.byKey || exists c :: c in sorted[..n] && c.changeId == x && Wanted(q, c)
    {
      AlertsOfMean(m.byKey, specId, x);
      AlertsOfMean(m'.byKey, specId, x);
      MatchIdsMean(q, sorted[..n], x);
    }
    forall a | a in m'.alerts && a !in m.alerts
      ensures exists c :: c in sorted[..n] && Wanted(q, c)
                && m'.alerts[a] == AlertRecord(idOf(AlertKey(specId, c.changeId)), specId, c.listingId, c.changeId, now)
    {
      var i :| 0 <= i < n && Matches(q, sorted[i]) && m'.alerts[a] == AlertFor(specId, sorted[i], now, idOf);
      ClassifyMeans(q, sorted[i]);
      AlertForMeans(specId, sorted[i], now, idOf);
      assert sorted[i] in sorted[..n];
    }
    forall i | 0 <= i < n ensures LoggedAs(q, specId, sorted[i], now, m'.matchLog[|m.matchLog| + i]) {
      ClassifyMeans(q, sorted[i]);
      assert m'.matchLog[|m.matchLog| + i] == EntriesFor(q, specId, now, sorted[..n])[i];
    }
  }

  lemma AlertForMeans(specId: Id, c: ListingChange, now: Time, idOf: AlertKey -> Id)
    ensures AlertFor(specId, c, now, idOf) ==
            AlertRecord(idOf(AlertKey(specId, c.changeId)), specId, c.listingId, c.changeId, now)
  {
  }

  method Run(repository: AlertRepository, q: Query, specId: Id, changes: seq<ListingChange>, now: Time, limit: int)
    returns (created: nat, ghost n: nat)
    requires repository.Valid()
    modifies repository
    ensures repository.Valid()
    ensures var sorted := Sort(changes, ChangeLe);
            && StopsAt(q, sorted, AlertsOf(old(repository.byKey), specId), limit, n)
            && Done(q, specId, sorted, n, now, repository.idOf, old(repository.View()), repository.View(), created)
            && InTimeOrder(sorted) && multiset(sorted) == multiset(changes)
            && RunsAs(q, specId, sorted, n, now, repository.idOf, limit, old(repository.View()), repository.View(),
                      created)
  {
    hide RunsAs, InTimeOrder;
    ghost var before := repository.View();
    var sorted := Sort(changes, ChangeLe);
    SortsByTime(changes);
    created, n := 0, 0;
    NothingDone(q, specId, sorted, now, repository.idOf, before);
    hide Done, Turned, NotEnough, AlertsOf, StopsAt, Matches;
    for i := 0 to |sorted|
      invariant n == i && repository.Valid()
      invariant Done(q, specId, sorted, i, now, repository.idOf, before, repository.View(), created)
      invariant NotEnough(q, sorted, AlertsOf(before.byKey, specId), limit, i)
    {
      ghost var middle := repository.View();
      var isNew := Examine(repository, q, specId, sorted[i], now);
      DoneNext(q, specId, sorted, i, now, repository.idOf, before, middle, repository.View(), created, isNew);
      n := i + 1;
      if isNew { created := created + 1; }
      if Matches(q, sorted[i]) && created >= limit {
        Stopped(q, specId, sorted, i, now, repository.idOf, before, repository.View(), created, limit);
        RunMeans(q, specId, sorted, n, now, repository.idOf, limit, before, repository.View(), created);
        return;
      }
      NotEnoughNext(q, specId, sorted, i, now, repository.idOf, before, repository.View(), created, limit);
    }
    NeverStopped(q, sorted, AlertsOf(before.byKey, specId), limit);
    RunMeans(q, specId, sorted, n, now, repository.idOf, limit, before, repository.View(), created);
  }

  lemma NothingDone(q: Query, specId: Id, sorted: seq<ListingChange>, now: Time, idOf: AlertKey -> Id, m: Memory)
    ensures Done(q, specId, sorted, 0, now, idOf, m, m, 0)
    ensures forall known, limit :: NotEnough(q, sorted, known, limit, 0)
  {
    assert sorted[..0] == [] && IdsOf([]) == {};
  }

  lemma NeverStopped(q: Query, sorted: seq<ListingChange>, known: set<Id>, limit: int)
    requires NotEnough(q, sorted, known, limit, |sorted|)
    ensures StopsAt(q, sorted, known, limit, |sorted|)
  {
    hide Without, MatchIds, Matches;
  }

  // After no match among the first n changes were there enough new alerts.
  ghost predicate NotEnough(q: Query, sorted: seq<ListingChange>, known: set<Id>, limit: int, n: nat)
    requires n <= |sorted|
  {
    forall m :: 0 < m <= n && Matches(q, sorted[m - 1]) ==> Without(MatchIds(q, sorted[..m]), known) < limit
  }

  lemma Stopped(q: Query, specId: Id, sorted: seq<ListingChange>, i: nat, now: Time, idOf: AlertKey -> Id,
                m: Memory, m': Memory, created: int, limit: int)
    requires i < |sorted| && Done(q, specId, sorted, i + 1, now, idOf, m, m', created) && Matches(q, sorted[i])
             && created >= limit
    requires NotEnough(q, sorted, AlertsOf(m.byKey, specId), limit, i)
    ensures StopsAt(q, sorted, AlertsOf(m.byKey, specId), limit, i + 1)
  {
    hide Without, MatchIds, Matches, AlertsOf, Filled;
  }

  lemma NotEnoughNext(q: Query, specId: Id, sorted: seq<ListingChange>, i: nat, now: Time, idOf: AlertKey -> Id,
                      m: Memory, m': Memory, created: int, limit: int)
    requires i < |sorted| && Done(q, specId, sorted, i + 1, now, idOf, m, m', created)
             && (Matches(q, sorted[i]) ==> created < limit)
    requires NotEnough(q, sorted, AlertsOf(m.byKey, specId), limit, i)
    ensures NotEnough(q, sorted, AlertsOf(m.byKey, specId), limit, i + 1)
  {
    hide Without, MatchIds, Matches, AlertsOf, Filled;
  }

  lemma SortedChangesDistinct(changes: seq<ListingChange>)
    requires DistinctChanges(changes)
    ensures DistinctChanges(Sort(changes, ChangeLe))
  {
    hide DistinctChanges, Sort, Sorted;
    ChangeLeIsTotalPreorder();
    SortSorts(changes, ChangeLe);
    OrderKeepsDistinct(changes, Sort(changes, ChangeLe));
  }

  lemma ChangeLeIsTotalPreorder()
    ensures TotalPreorder(ChangeLe)
  {
  }

  lemma OrderKeepsDistinct(changes: seq<ListingChange>, s: seq<ListingChange>)
    requires DistinctChanges(changes) && multiset(s) == multiset(changes)
    ensures DistinctChanges(s)
  {
    forall i, j | 0 <= i < j < |s| ensures s[i].changeId != s[j].changeId {
      if s[i].changeId == s[j].changeId {
        assert s[i] in multiset(changes) && s[j] in multiset(changes);
        SameIdSameChange(changes, s[i], s[j]);
        SeenTwice(s, i, j);
        ChangeOnce(changes, s[i]);
        assert false;
      }
    }
  }

  lemma SameIdSameChange(changes: seq<ListingChange>, a: ListingChange, b: ListingChange)
    requires DistinctChanges(changes) && a in changes && b in changes && a.changeId == b.changeId
    ensures a == b
  {
    var i :| 0 <= i < |changes| && changes[i] == a;
    var j :| 0 <= j < |changes| && changes[j] == b;
  }

  lemma {:induction false} ChangeOnce(changes: seq<ListingChange>, c: ListingChange)
    requires DistinctChanges(changes)
    ensures multiset(changes)[c] <= 1
  {
    if changes != [] {
      ChangeOnce(changes[..|changes| - 1], c);
      assert changes == changes[..|changes| - 1] + [changes[|changes| - 1]];
      if changes[|changes| - 1] == c { assert c !in changes[..|changes| - 1]; }
    }
  }

  lemma AddedKey(before: map<AlertKey, Id>, after: map<AlertKey, Id>, k: AlertKey, id: Id)
    requires after == before[k := id]
    ensures AlertsOf(after, k.specId) == AlertsOf(before, k.specId) + {k.changeId}
    ensures k in before <==> k.changeId in AlertsOf(before, k.specId)
  {
    if k.changeId in AlertsOf(before, k.specId) {
      var k2 :| k2 in before && k2.specId == k.specId && k2.changeId == k.changeId;
      assert k2 == k;
    }
    forall x ensures x in AlertsOf(after, k.specId) <==> x in AlertsOf(before, k.specId) + {k.changeId} {
      if x == k.changeId { assert k in after; }
      if x in AlertsOf(before, k.specId) {
        var k2 :| k2 in before && k2.specId == k.specId && k2.changeId == x;
        assert k2 in after;
      }
    }
  }

  // Examining one more change: its alert is new exactly when it was unknown before the run and not found during it.
  lemma ExamineNext(q: Query, specId: Id, sorted: seq<ListingChange>, i: nat, before: map<AlertKey, Id>,
                    now: map<AlertKey, Id>, created: int, id: Id)
    requires i < |sorted| && Examined(q, specId, sorted, i, before, now, created)
    ensures var c := sorted[i];
            var k := AlertKey(specId, c.changeId);
            if Matches(q, c)
            then Examined(q, specId, sorted, i + 1, before, now[k := id], created + if k in now then 0 else 1)
            else Examined(q, specId, sorted, i + 1, before, now, created)
  {
    hide MatchIds, Matches, AlertsOf, Without, IdsOf;
    var c, ids := sorted[i], MatchIds(q, sorted[..i]);
    MatchIdsNext(q, sorted, i);
    if Matches(q, c) {
      OneMoreKnown(ids, c.changeId, AlertsOf(before, specId));
      var k := AlertKey(specId, c.changeId);
      AddedKey(now, now[k := id], k, id);
    }
  }

  lemma MatchIdsNext(q: Query, sorted: seq<ListingChange>, i: nat)
    requires i < |sorted|
    ensures MatchIds(q, sorted[..i + 1]) ==
            if Matches(q, sorted[i]) then MatchIds(q, sorted[..i]) + [sorted[i].changeId] else MatchIds(q, sorted[..i])
  {
    assert sorted[..i + 1][..i] == sorted[..i];
  }

  lemma OneMoreKnown(ids: seq<Id>, id: Id, known: set<Id>)
    ensures Without(ids + [id], known) == Without(ids, known) + if id in known || id in ids then 0 else 1
    ensures IdsOf(ids + [id]) == IdsOf(ids) + {id}
    ensures id in IdsOf(ids) <==> id in ids
  {
    assert IdsOf(ids + [id]) == IdsOf(ids) + {id};
    if id in known || id in ids {
      assert IdsOf(ids + [id]) - known == IdsOf(ids) - known;
    } else {
      assert IdsOf(ids + [id]) - known == (IdsOf(ids) - known) + {id};
    }
  }

  lemma {:induction false} MatchedIdsSeen(q: Query, sorted: seq<ListingChange>, i: nat, id: Id)
    requires i <= |sorted| && forall j :: 0 <= j < i ==> sorted[j].changeId != id
    ensures id !in MatchIds(q, sorted[..i])
  {
    if i > 0 {
      assert sorted[..i][..i - 1] == sorted[..i - 1];
      MatchedIdsSeen(q, sorted, i - 1, id);
    }
  }

  lemma LogNext(q: Query, specId: Id, now: Time, sorted: seq<ListingChange>, i: nat)
    requires i < |sorted|
    ensures var c := sorted[i];
            EntriesFor(q, specId, now, sorted[..i + 1]) == EntriesFor(q, specId, now, sorted[..i]) +
              [MatchLogEntry(c.changeId, c.listingId, specId, Classify(c, q.since, q.listings, q.passes), now)]
  {
  }

  // ---------- exact progress ----------

  ghost predicate Distinct(s: seq<Id>) {
    forall i, j :: 0 <= i < j < |s| ==> s[i] != s[j]
  }

  lemma {:induction false} MatchIdsDistinct(q: Query, sorted: seq<ListingChange>, n: nat)
    requires n <= |sorted| && DistinctChanges(sorted)
    ensures Distinct(MatchIds(q, sorted[..n])) && MatchIds(q, sorted[..n]) <= MatchIds(q, sorted)
    decreases n
  {
    if n > 0 {
      MatchIdsDistinct(q, sorted, n - 1);
      MatchIdsNext(q, sorted, n - 1);
      MatchedIdsSeen(q, sorted, n - 1, sorted[n - 1].changeId);
    } else {
      assert sorted[..0] == [];
    }
    MatchIdsGrow(q, sorted, n);
  }

  lemma {:induction false} MatchIdsGrow(q: Query, sorted: seq<ListingChange>, n: nat)
    requires n <= |sorted|
    ensures MatchIds(q, sorted[..n]) <= MatchIds(q, sorted)
    decreases |sorted| - n
  {
    if n < |sorted| {
      MatchIdsNext(q, sorted, n);
      MatchIdsGrow(q, sorted, n + 1);
    } else {
      assert sorted[..n] == sorted;
    }
  }

  // Where the j-th match is: the first k changes hold j matches, the last of them at k.
  lemma {:induction false} PositionOf(q: Query, sorted: seq<ListingChange>, n: nat, j: nat) returns (k: nat)
    requires n <= |sorted| && 0 < j <= |MatchIds(q, sorted[..n])|
    ensures 0 < k <= n && Matches(q, sorted[k - 1]) && |MatchIds(q, sorted[..k])| == j
    ensures j < |MatchIds(q, sorted[..n])| ==> k < n
    decreases n
  {
    hide Matches, MatchIds;
    NoMatchesYet(q, sorted);
    MatchIdsNext(q, sorted, n - 1);
    var here, earlier := MatchIds(q, sorted[..n]), MatchIds(q, sorted[..n - 1]);
    assert |here| == |earlier| + if Matches(q, sorted[n - 1]) then 1 else 0;
    if Matches(q, sorted[n - 1]) && j == |here| {
      k := n;
    } else {
      k := PositionOf(q, sorted, n - 1, j);
    }
  }

  lemma NoMatchesYet(q: Query, sorted: seq<ListingChange>)
    ensures MatchIds(q, sorted[..0]) == []
  {
  }

  lemma {:induction false} WithoutPrefix(all: seq<Id>, m: nat, p: nat)
    requires Distinct(all) && m <= |all| && p <= |all|
    ensures Without(all[..p], IdsOf(all[..m])) == Max(0, p - m)
    decreases p
  {
    hide Without, IdsOf;
    if p == 0 {
      NoIds(all);
    } else {
      WithoutPrefix(all, m, p - 1);
      assert all[..p] == all[..p - 1] + [all[p - 1]];
      OneMoreKnown(all[..p - 1], all[p - 1], IdsOf(all[..m]));
      SeenBefore(all, p - 1, p - 1);
      SeenBefore(all, m, p - 1);
    }
  }

  lemma SeenBefore(all: seq<Id>, m: nat, i: nat)
    requires Distinct(all) && m <= |all| && i < |all|
    ensures all[i] in IdsOf(all[..m]) <==> i < m
    ensures all[i] in all[..m] <==> i < m
  {
    if i < m { assert all[..m][i] == all[i]; }
  }

  // How many matching changes have an alert after a run that found the first m already there.
  function Reach(m: nat, total: nat, limit: int): nat {
    if limit >= 1 then Min(m + limit, total) else Max(m, Min(1, total))
  }

  // The number of matches a run examines.
  lemma StopsAfter(q: Query, sorted: seq<ListingChange>, m: nat, limit: int, n: nat)
    requires DistinctChanges(sorted) && m <= |MatchIds(q, sorted)|
    requires StopsAt(q, sorted, IdsOf(MatchIds(q, sorted)[..m]), limit, n)
    ensures Max(m, |MatchIds(q, sorted[..n])|) == Reach(m, |MatchIds(q, sorted)|, limit)
  {
    hide MatchIds, Matches, DistinctChanges, Without, IdsOf;
    var all, p := MatchIds(q, sorted), |MatchIds(q, sorted[..n])|;
    MatchIdsDistinct(q, sorted, |sorted|);
    MatchIdsDistinct(q, sorted, n);
    assert sorted[..|sorted|] == sorted;
    assert MatchIds(q, sorted[..n]) == all[..p];
    WithoutPrefix(all, m, p);
    if p > 1 {
      var k := PositionOf(q, sorted, n, p - 1);
      MatchIdsDistinct(q, sorted, k);
      assert MatchIds(q, sorted[..k]) == all[..p - 1];
      WithoutPrefix(all, m, p - 1);
    }
    if n < |sorted| {
      MatchIdsNext(q, sorted, n - 1);
    }
  }

  lemma {:induction false} UnionOfPrefixes(all: seq<Id>, m: nat, p: nat)
    requires m <= |all| && p <= |all|
    ensures IdsOf(all[..m]) + IdsOf(all[..p]) == IdsOf(all[..Max(m, p)])
  {
    if m <= p { assert all[..m] == all[..p][..m]; } else { assert all[..p] == all[..m][..p]; }
    forall x ensures x in IdsOf(all[..m]) + IdsOf(all[..p]) <==> x in IdsOf(all[..Max(m, p)]) {}
  }

  // One run: if the alerts of the spec are those of the first m matching changes, they become those of the first
  // Reach(m), and the run returns the difference. Each run adds `limit` more exactly when the limit is at least 1;
  // otherwise the runs never get past the first match.
  lemma RunProgress(q: Query, specId: Id, sorted: seq<ListingChange>, m: nat, limit: int, n: nat,
                    before: map<AlertKey, Id>, after: map<AlertKey, Id>, created: int)
    requires DistinctChanges(sorted) && m <= |MatchIds(q, sorted)| && n <= |sorted|
    requires AlertsOf(before, specId) == IdsOf(MatchIds(q, sorted)[..m])
    requires StopsAt(q, sorted, AlertsOf(before, specId), limit, n)
             && Examined(q, specId, sorted, n, before, after, created)
    ensures var r := Reach(m, |MatchIds(q, sorted)|, limit);
            AlertsOf(after, specId) == IdsOf(MatchIds(q, sorted)[..r]) && created == r - m
  {
    hide MatchIds, DistinctChanges, AlertsOf, StopsAt, Reach;
    var all, p := MatchIds(q, sorted), |MatchIds(q, sorted[..n])|;
    StopsAfter(q, sorted, m, limit, n);
    MatchIdsDistinct(q, sorted, |sorted|);
    MatchIdsDistinct(q, sorted, n);
    assert sorted[..|sorted|] == sorted;
    assert MatchIds(q, sorted[..n]) == all[..p];
    WithoutPrefix(all, m, p);
    UnionOfPrefixes(all, m, p);
  }

  // The states and results of consecutive runs.
  ghost predicate AreRuns(q: Query, specId: Id, sorted: seq<ListingChange>, limit: int,
                          states: seq<map<AlertKey, Id>>, created: seq<int>, stops: seq<nat>) {
    && |states| == |created| + 1 == |stops| + 1
    && forall i :: 0 <= i < |created| ==>
         stops[i] <= |sorted| && StopsAt(q, sorted, AlertsOf(states[i], specId), limit, stops[i]) &&
         Examined(q, specId, sorted, stops[i], states[i], states[i + 1], created[i])
  }

  // Starting without alerts for the spec, after k runs its alerts are those of the first min(k * limit, n) of the n
  // matching changes, and each run returned the number it added.
  lemma {:induction false} BatchesMakeExactProgress(q: Query, specId: Id, sorted: seq<ListingChange>, limit: int,
                                                    states: seq<map<AlertKey, Id>>, created: seq<int>, stops: seq<nat>,
                                                    k: nat)
    requires DistinctChanges(sorted) && limit >= 1 && AreRuns(q, specId, sorted, limit, states, created, stops)
             && k <= |created|
    requires AlertsOf(states[0], specId) == {}
    ensures var n := |MatchIds(q, sorted)|;
            && k * limit >= 0
            && AlertsOf(states[k], specId) == IdsOf(MatchIds(q, sorted)[..Min(k * limit, n)])
            && (k > 0 ==> (k - 1) * limit >= 0 && created[k - 1] == Min(k * limit, n) - Min((k - 1) * limit, n))
    decreases k
  {
    hide MatchIds, DistinctChanges, AlertsOf, StopsAt, Examined, IdsOf;
    var all := MatchIds(q, sorted);
    if k == 0 {
      NoIds(all);
    } else {
      BatchesMakeExactProgress(q, specId, sorted, limit, states, created, stops, k - 1);
      assert k * limit == (k - 1) * limit + limit;
      RunProgress(q, specId, sorted, Min((k - 1) * limit, |all|), limit, stops[k - 1], states[k - 1], states[k],
                  created[k - 1]);
    }
  }

  // How many of n matches have their alert after k runs.
  function Progress(k: nat, limit: int, n: nat): (r: nat)
    requires limit >= 1
    ensures r <= n
  {
    assert k * limit >= 0;
    Min(k * limit, n)
  }

  // One run after the other, at the given times, on a repository that has no alert for the spec: afterwards the
  // spec's alerts are those of the first matching changes in the order of change time and id, limit more with each
  // run, and each run returned the number it added.
  method Batches(repository: AlertRepository, q: Query, specId: Id, changes: seq<ListingChange>, times: seq<Time>,
                 limit: int)
    returns (created: seq<int>)
    requires repository.Valid() && DistinctChanges(changes) && limit >= 1
    requires AlertsOf(repository.byKey, specId) == {}
    modifies repository
    ensures repository.Valid()
    ensures var all := MatchIds(q, Sort(changes, ChangeLe));
            && AlertsOf(repository.byKey, specId) == IdsOf(all[..Progress(|times|, limit, |all|)])
            && |created| == |times|
            && forall i :: 0 <= i < |times| ==>
                 created[i] == Progress(i + 1, limit, |all|) - Progress(i, limit, |all|)
    ensures AlertedFirst(q, specId, changes, repository.byKey, |times| * limit)
  {
    hide AlertedFirst;
    ghost var sorted := Sort(changes, ChangeLe);
    ghost var states, stops := [repository.byKey], [];
    SortedChangesDistinct(changes);
    created := [];
    hide DistinctChanges, AreRuns, AlertsOf, MatchIds, StopsAt, Done, IdsOf, Progress;
    NoRuns(q, specId, sorted, limit, repository.byKey);
    for i := 0 to |times|
      invariant repository.Valid() && |created| == i && |states| == i + 1
      invariant AreRuns(q, specId, sorted, limit, states, created, stops)
      invariant states[0] == old(repository.byKey) && states[i] == repository.byKey
    {
      ghost var before := repository.View();
      var count, n := Run(repository, q, specId, changes, times[i], limit);
      OneMoreRun(q, specId, sorted, times[i], repository.idOf, limit, states, created, stops, before, repository.View(),
                 count, n);
      created, stops, states := created + [count], stops + [n], states + [repository.byKey];
    }
    RunsProgress(q, specId, sorted, limit, states, created, stops);
    FirstAreAlerted(q, specId, changes, repository.byKey, |times|, limit);
  }

  ghost function WantedIds(q: Query, changes: seq<ListingChange>): set<Id> {
    set c | c in changes && Wanted(q, c) :: c.changeId
  }

  // The spec's alerts are for wanted changes, `most` of them if there are as many, and none is passed over for a later
  // one.
  ghost predicate AlertedFirst(q: Query, specId: Id, changes: seq<ListingChange>, byKey: map<AlertKey, Id>, most: int) {
    var alerted := AlertsOf(byKey, specId);
    && alerted <= WantedIds(q, changes)
    && |alerted| == (if most <= |WantedIds(q, changes)| then most else |WantedIds(q, changes)|)
    && forall c, d :: c in changes && d in changes && Wanted(q, c) && Wanted(q, d) ==>
         c.changeId in alerted && d.changeId !in alerted ==> Earlier(c, d)
  }

  lemma FirstAreAlerted(q: Query, specId: Id, changes: seq<ListingChange>, byKey: map<AlertKey, Id>, k: nat, limit: int)
    requires limit >= 1 && DistinctChanges(changes)
    requires var all := MatchIds(q, Sort(changes, ChangeLe));
             AlertsOf(byKey, specId) == IdsOf(all[..Progress(k, limit, |all|)])
    ensures AlertedFirst(q, specId, changes, byKey, k * limit)
  {
    hide MatchIds, AlertsOf, Wanted, Sort, DistinctChanges, Distinct;
    var sorted := Sort(changes, ChangeLe);
    var all := MatchIds(q, sorted);
    var m := Progress(k, limit, |all|);
    SortsByTime(changes);
    SortedChangesDistinct(changes);
    MatchIdsDistinct(q, sorted, |sorted|);
    assert sorted[..|sorted|] == sorted;
    WantedAreMatched(q, changes, sorted);
    PrefixSizes(all, m);
    forall c, d | c in changes && d in changes && Wanted(q, c) && Wanted(q, d)
                  && c.changeId in IdsOf(all[..m]) && d.changeId !in IdsOf(all[..m])
      ensures Earlier(c, d)
    {
      AlertedComesFirst(q, sorted, c, d, m);
    }
  }

  lemma WantedAreMatched(q: Query, changes: seq<ListingChange>, sorted: seq<ListingChange>)
    requires forall c :: c in sorted <==> c in changes
    ensures IdsOf(MatchIds(q, sorted)) == WantedIds(q, changes)
  {
    hide MatchIds, Wanted;
    forall x ensures x in MatchIds(q, sorted) <==> x in WantedIds(q, changes) { MatchIdsMean(q, sorted, x); }
  }

  lemma PrefixSizes(all: seq<Id>, m: nat)
    requires Distinct(all) && m <= |all|
    ensures |IdsOf(all[..m])| == m && |IdsOf(all)| == |all| && IdsOf(all[..m]) <= IdsOf(all)
  {
    WithoutPrefix(all, 0, m);
    WithoutPrefix(all, 0, |all|);
    assert all[..|all|] == all && IdsOf(all[..0]) == {};
    assert IdsOf(all[..m]) - {} == IdsOf(all[..m]) && IdsOf(all) - {} == IdsOf(all);
  }

  // Among the ids of the sorted changes' matches an earlier one belongs to an earlier change.
  lemma {:induction false} AlertedComesFirst(q: Query, sorted: seq<ListingChange>, c: ListingChange, d: ListingChange,
                                             m: nat)
    requires DistinctChanges(sorted) && InTimeOrder(sorted) && c in sorted && d in sorted && Wanted(q, c)
             && Wanted(q, d)
    requires m <= |MatchIds(q, sorted)|
    requires c.changeId in IdsOf(MatchIds(q, sorted)[..m]) && d.changeId !in IdsOf(MatchIds(q, sorted)[..m])
    ensures Earlier(c, d)
  {
    hide Wanted, Matches;
    var init, last := sorted[..|sorted| - 1], sorted[|sorted| - 1];
    assert sorted == init + [last];
    ClassifyMeans(q, last);
    MatchedIdsSeen(q, sorted, |sorted| - 1, last.changeId);
    var all, before := MatchIds(q, sorted), MatchIds(q, init);
    if d == last {
      var i :| 0 <= i < |sorted| && sorted[i] == c;
    } else if m <= |before| {
      assert all[..m] == before[..m];
      assert c.changeId in before && c in init;
      AlertedComesFirst(q, init, c, d, m);
    } else {
      assert all[..m] == all;
      MatchIdsMean(q, sorted, d.changeId);
      assert false;
    }
  }

  lemma NoRuns(q: Query, specId: Id, sorted: seq<ListingChange>, limit: int, byKey: map<AlertKey, Id>)
    ensures AreRuns(q, specId, sorted, limit, [byKey], [], [])
  {
  }

  lemma OneMoreRun(q: Query, specId: Id, sorted: seq<ListingChange>, now: Time, idOf: AlertKey -> Id, limit: int,
                   states: seq<map<AlertKey, Id>>, created: seq<int>, stops: seq<nat>, m: Memory, m': Memory,
                   count: int, n: nat)
    requires AreRuns(q, specId, sorted, limit, states, created, stops) && states[|created|] == m.byKey
    requires StopsAt(q, sorted, AlertsOf(m.byKey, specId), limit, n)
             && Done(q, specId, sorted, n, now, idOf, m, m', count)
    ensures AreRuns(q, specId, sorted, limit, states + [m'.byKey], created + [count], stops + [n])
  {
    hide StopsAt, Examined, Filled, AlertsOf;
  }

  lemma RunsProgress(q: Query, specId: Id, sorted: seq<ListingChange>, limit: int,
                     states: seq<map<AlertKey, Id>>, created: seq<int>, stops: seq<nat>)
    requires DistinctChanges(sorted) && limit >= 1 && AreRuns(q, specId, sorted, limit, states, created, stops)
    requires AlertsOf(states[0], specId) == {}
    ensures var all, k := MatchIds(q, sorted), |created|;
            && AlertsOf(states[k], specId) == IdsOf(all[..Progress(k, limit, |all|)])
            && forall i :: 0 <= i < k ==> created[i] == Progress(i + 1, limit, |all|) - Progress(i, limit, |all|)
  {
    hide DistinctChanges, AreRuns, AlertsOf, MatchIds, IdsOf;
    var all, k := MatchIds(q, sorted), |created|;
    BatchesMakeExactProgress(q, specId, sorted, limit, states, created, stops, k);
    forall i | 0 <= i < k ensures created[i] == Progress(i + 1, limit, |all|) - Progress(i, limit, |all|) {
      BatchesMakeExactProgress(q, specId, sorted, limit, states, created, stops, i + 1);
    }
  }

  lemma NoIds(all: seq<Id>)
    ensures IdsOf(all[..0]) == {} && forall known :: Without(all[..0], known) == 0
  {
  }
}
