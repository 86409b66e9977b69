// services/dedupe/service.py: the changes between two canonical states, recorded once each in a store.
module ChangeLog {
  import opened Prelude
  import opened Sorting
  import opened Clustering
  import opened Canonical

  datatype ChangeKey = ChangeKey(listingId: Id, field: Field, oldValue: Option<Json>, newValue: Option<Json>)

  datatype ListingChange = ListingChange(changeId: Id, listingId: Id, field: Field, oldValue: Option<Json>,
                                         newValue: Option<Json>, changedAt: Time)

  type State = map<Field, CanonicalField>

  ghost predicate InjectiveKeys(idOf: ChangeKey -> Id) {
    forall a, b :: idOf(a) == idOf(b) ==> a == b
  }

  // ---------- the order of field paths ----------

  predicate PathLe(a: string, b: string) {
    a == "" || (b != "" && (a[0] < b[0] || (a[0] == b[0] && PathLe(a[1..], b[1..]))))
  }

  lemma PathLeTotal(a: string, b: string)
    ensures PathLe(a, b) || PathLe(b, a)
  {
    if a != "" && b != "" && a[0] == b[0] { PathLeTotal(a[1..], b[1..]); }
  }

  lemma PathLeTransitive(a: string, b: string, c: string)
    requires PathLe(a, b) && PathLe(b, c)
    ensures PathLe(a, c)
  {
    if a != "" && a[0] == b[0] && b[0] == c[0] { PathLeTransitive(a[1..], b[1..], c[1..]); }
  }

  // A call reports each field at most once, so the field path alone decides the order.
  predicate ChangeLe(a: ListingChange, b: ListingChange) { PathLe(a.field, b.field) }

  lemma ChangeLeIsTotalPreorder()
    ensures TotalPreorder(ChangeLe)
  {
    forall a: ListingChange, b: ListingChange
      ensures ChangeLe(a, b) || ChangeLe(b, a) { PathLeTotal(a.field, b.field); }
    forall a: ListingChange, b: ListingChange, c: ListingChange | ChangeLe(a, b) && ChangeLe(b, c)
      ensures ChangeLe(a, c) {
      PathLeTransitive(a.field, b.field, c.field);
    }
  }

  // ---------- what a call has to report ----------

  function ValueAt(s: State, f: Field): Option<Json> {
    if f in s then s[f].value else None
  }

  predicate Differs(before: State, after: State, f: Field) {
    (f in before || f in after) && ValueAt(before, f) != ValueAt(after, f)
  }

  function KeyFor(listingId: Id, before: State, after: State, f: Field): ChangeKey {
    ChangeKey(listingId, f, ValueAt(before, f), ValueAt(after, f))
  }

  function ChangeFor(listingId: Id, before: State, after: State, f: Field, idOf: ChangeKey -> Id): ListingChange
    requires f in before || f in after
  {
    ListingChange(idOf(KeyFor(listingId, before, after, f)), listingId, f, ValueAt(before, f), ValueAt(after, f),
                  if f in after then after[f].observedAt else before[f].observedAt)
  }

  // A change is new when its id was not in the store.
  ghost predicate IsNew(c: ListingChange, listingId: Id, before: State, after: State, known: set<Id>,
                        idOf: ChangeKey -> Id) {
    Differs(before, after, c.field) && c == ChangeFor(listingId, before, after, c.field, idOf) && c.changeId !in known
  }

  class ListingChangeStore {
    var changes: map<Id, ListingChange>

    constructor ()
      ensures changes == map[]
    {
      changes := map[];
    }

    method Record(change: ListingChange) returns (isNew: bool)
      modifies this
      ensures isNew == (change.changeId !in old(changes))
      ensures changes == if isNew then old(changes)[change.changeId := change] else old(changes)
    {
      if change.changeId in changes { return false; }
      changes := changes[change.changeId := change];
      isNew := true;
    }
  }

  // The store has grown by exactly these changes.
  ghost predicate Grew(store: map<Id, ListingChange>, grown: map<Id, ListingChange>, changes: seq<ListingChange>) {
    && (forall id :: id in grown <==> id in store || exists c :: c in changes && c.changeId == id)
    && (forall id :: id in store ==> id in grown && grown[id] == store[id])
    && (forall c :: c in changes ==> c.changeId in grown && grown[c.changeId] == c)
  }

  // Exactly the new changes, each field at most once.
  ghost predicate Reports(changes: seq<ListingChange>, listingId: Id, before: State, after: State, fields: set<Field>,
                          known: set<Id>, idOf: ChangeKey -> Id) {
    && (forall c :: c in changes <==> c.field in fields && IsNew(c, listingId, before, after, known, idOf))
    && OncePerField(changes)
  }

  ghost predicate OncePerField(changes: seq<ListingChange>) {
    forall i, j :: 0 <= i < j < |changes| ==> changes[i].field != changes[j].field
  }

  // Two fields never compete for one change id, so what is new does not depend on the order of the fields.
  lemma NoCompetition(changes: seq<ListingChange>, listingId: Id, before: State, after: State, fields: set<Field>,
                      known: set<Id>, idOf: ChangeKey -> Id, f: Field)
    requires InjectiveKeys(idOf) && f !in fields
    requires Reports(changes, listingId, before, after, fields, known, idOf)
    ensures forall c :: c in changes ==> c.field != f && c.changeId != idOf(KeyFor(listingId, before, after, f))
  {
    forall c | c in changes ensures c.changeId != idOf(KeyFor(listingId, before, after, f)) {
      assert c.changeId == idOf(KeyFor(listingId, before, after, c.field));
      assert KeyFor(listingId, before, after, c.field) != KeyFor(listingId, before, after, f);
    }
  }

  lemma ReportOneMore(changes: seq<ListingChange>, listingId: Id, before: State, after: State, fields: set<Field>,
                      known: set<Id>, idOf: ChangeKey -> Id, f: Field)
    requires InjectiveKeys(idOf) && f !in fields && (f in before || f in after)
    requires Reports(changes, listingId, before, after, fields, known, idOf)
    ensures var c := ChangeFor(listingId, before, after, f, idOf);
            Reports(if Differs(before, after, f) && c.changeId !in known then changes + [c] else changes,
                    listingId, before, after, fields + {f}, known, idOf)
  {
    var c := ChangeFor(listingId, before, after, f, idOf);
    var more := if Differs(before, after, f) && c.changeId !in known then changes + [c] else changes;
    NoCompetition(changes, listingId, before, after, fields, known, idOf, f);
    forall c2 ensures c2 in more <==> c2.field in fields + {f} && IsNew(c2, listingId, before, after, known, idOf) {
      assert c2 in more <==> c2 in changes || (c2 == c && Differs(before, after, f) && c.changeId !in known);
      assert c2.field == f && IsNew(c2, listingId, before, after, known, idOf) ==> c2 == c;
    }
    forall i | 0 <= i < |changes| ensures changes[i].field != f { assert changes[i] in changes; }
  }

  lemma GrewOneMore(store: map<Id, ListingChange>, grown: map<Id, ListingChange>, changes: seq<ListingChange>,
                    c: ListingChange)
    requires Grew(store, grown, changes) && c.changeId !in grown
    ensures Grew(store, grown[c.changeId := c], changes + [c])
  {
    var more := changes + [c];
    forall id ensures id in grown[c.changeId := c] <==> id in store || exists d :: d in more && d.changeId == id {
      if exists d :: d in changes && d.changeId == id {
        var d :| d in changes && d.changeId == id;
        assert d in more;
      }
      assert c in more;
    }
  }

  // Whether an id is in the store by now: as before the call, as far as this field is concerned.
  lemma KnownByNow(store: map<Id, ListingChange>, grown: map<Id, ListingChange>, changes: seq<ListingChange>,
                   listingId: Id, before: State, after: State, fields: set<Field>, idOf: ChangeKey -> Id, f: Field)
    requires InjectiveKeys(idOf) && f !in fields && Grew(store, grown, changes)
    requires Reports(changes, listingId, before, after, fields, store.Keys, idOf)
    ensures var id := idOf(KeyFor(listingId, before, after, f)); id in grown <==> id in store
  {
    hide Reports;
    NoCompetition(changes, listingId, before, after, fields, store.Keys, idOf, f);
  }

  lemma NextField(store: map<Id, ListingChange>, grown: map<Id, ListingChange>, changes: seq<ListingChange>,
                  listingId: Id, before: State, after: State, fields: set<Field>, idOf: ChangeKey -> Id, f: Field)
    requires InjectiveKeys(idOf) && f !in fields && (f in before || f in after) && Grew(store, grown, changes)
    requires Reports(changes, listingId, before, after, fields, store.Keys, idOf)
    ensures var c := ChangeFor(listingId, before, after, f, idOf);
            if ValueAt(before, f) != ValueAt(after, f) && c.changeId !in grown
            then Reports(changes + [c], listingId, before, after, fields + {f}, store.Keys, idOf)
              && Grew(store, grown[c.changeId := c], changes + [c])
            else Reports(changes, listingId, before, after, fields + {f}, store.Keys, idOf)
  {
    hide Reports, Grew, InjectiveKeys, ValueAt;
    ReportOneMore(changes, listingId, before, after, fields, store.Keys, idOf, f);
    KnownByNow(store, grown, changes, listingId, before, after, fields, idOf, f);
    var c := ChangeFor(listingId, before, after, f, idOf);
    if c.changeId !in grown { GrewOneMore(store, grown, changes, c); }
  }

  // ---------- the same in the fields themselves ----------

  // a is the beginning of b, or smaller where they first differ.
  ghost predicate PathBefore(a: string, b: string) {
    a <= b || exists n :: 0 <= n < |a| && n < |b| && a[..n] == b[..n] && a[n] < b[n]
  }

  lemma {:induction false} PathLeMeans(a: string, b: string)
    requires PathLe(a, b)
    ensures PathBefore(a, b)
  {
    if a != "" {
      if a[0] < b[0] {
        assert a[..0] == b[..0];
      } else {
        PathLeMeans(a[1..], b[1..]);
        if a[1..] <= b[1..] {
          assert a == [a[0]] + a[1..] && b == [b[0]] + b[1..];
        } else {
          var n :| 0 <= n < |a[1..]| && n < |b[1..]| && a[1..][..n] == b[1..][..n] && a[1..][n] < b[1..][n];
          assert a[..n + 1] == [a[0]] + a[1..][..n] && b[..n + 1] == [b[0]] + b[1..][..n];
          assert a[n + 1] < b[n + 1];
        }
      }
    }
  }

  // The change says what the field was and is, when that was observed, and has the id of just that transition.
  ghost predicate ChangesAs(c: ListingChange, listingId: Id, before: State, after: State, idOf: ChangeKey -> Id) {
    && (c.field in before || c.field in after) && c.listingId == listingId
    && c.oldValue == (if c.field in before then before[c.field].value else None)
    && c.newValue == (if c.field in after then after[c.field].value else None)
    && c.oldValue != c.newValue
    && c.changedAt == (if c.field in after then after[c.field].observedAt else before[c.field].observedAt)
    && c.changeId == idOf(ChangeKey(listingId, c.field, c.oldValue, c.newValue))
  }

  // The changes are exactly those that were not known, in the order of their field paths, one for a field.
  ghost predicate DiffsAs(changes: seq<ListingChange>, listingId: Id, before: State, after: State, known: set<Id>,
                          idOf: ChangeKey -> Id) {
    && (forall c :: c in changes <==> ChangesAs(c, listingId, before, after, idOf) && c.changeId !in known)
    && (forall i, j :: 0 <= i < j < |changes| ==>
          changes[i].field != changes[j].field && PathBefore(changes[i].field, changes[j].field))
  }

  lemma ReportsMean(changes: seq<ListingChange>, listingId: Id, before: State, after: State, known: set<Id>,
                    idOf: ChangeKey -> Id)
    requires Reports(changes, listingId, before, after, before.Keys + after.Keys, known, idOf)
             && Sorted(changes, ChangeLe)
    ensures DiffsAs(changes, listingId, before, after, known, idOf)
  {
    hide PathBefore, PathLe;
    forall c: ListingChange
      ensures c in changes <==> ChangesAs(c, listingId, before, after, idOf) && c.changeId !in known {
      NewMeans(c, listingId, before, after, known, idOf);
    }
    hide IsNew, ChangesAs;
    forall i, j | 0 <= i < j < |changes| ensures PathBefore(changes[i].field, changes[j].field) {
      assert ChangeLe(changes[i], changes[j]);
      PathLeMeans(changes[i].field, changes[j].field);
    }
  }

  lemma NewMeans(c: ListingChange, listingId: Id, before: State, after: State, known: set<Id>, idOf: ChangeKey -> Id)
    ensures c.field in before.Keys + after.Keys && IsNew(c, listingId, before, after, known, idOf) <==>
            ChangesAs(c, listingId, before, after, idOf) && c.changeId !in known
  {
  }

  method Diff(listingId: Id, before: State, after: State, store: ListingChangeStore, idOf: ChangeKey -> Id)
    returns (changes: seq<ListingChange>)
    requires InjectiveKeys(idOf)
    modifies store
    ensures Reports(changes, listingId, before, after, before.Keys + after.Keys, old(store.changes).Keys, idOf)
    ensures Sorted(changes, ChangeLe)
    ensures Grew(old(store.changes), store.changes, changes)
    ensures DiffsAs(changes, listingId, before, after, old(store.changes).Keys, idOf)
  {
    hide DiffsAs;
    ghost var known, fields := store.changes, before.Keys + after.Keys;
    changes := [];
    var todo := before.Keys + after.Keys;
    while todo != {}
      invariant todo <= fields
      invariant Reports(changes, listingId, before, after, fields - todo, known.Keys, idOf)
      invariant Grew(known, store.changes, changes)
    {
      hide Reports, Grew, InjectiveKeys;
      var f :| f in todo;
      NextField(known, store.changes, changes, listingId, before, after, fields - todo, idOf, f);
      assert fields - (todo - {f}) == (fields - todo) + {f};
      if ValueAt(before, f) != ValueAt(after, f) {
        var change := ChangeFor(listingId, before, after, f, idOf);
        var isNew := store.Record(change);
        if isNew { changes := changes + [change]; }
      }
      todo := todo - {f};
    }
    SortedFindings(known, store.changes, changes, listingId, before, after, idOf);
    changes := Sort(changes, ChangeLe);
    ReportsMean(changes, listingId, before, after, known.Keys, idOf);
  }

  lemma SortedFindings(store: map<Id, ListingChange>, grown: map<Id, ListingChange>, found: seq<ListingChange>,
                       listingId: Id, before: State, after: State, idOf: ChangeKey -> Id)
    requires Grew(store, grown, found) && Reports(found, listingId, before, after, before.Keys + after.Keys, store.Keys,
                                                  idOf)
    ensures var changes := Sort(found, ChangeLe);
            Grew(store, grown, changes) && Sorted(changes, ChangeLe)
            && Reports(changes, listingId, before, after, before.Keys + after.Keys, store.Keys, idOf)
  {
    hide Reports, Grew;
    ChangeLeIsTotalPreorder();
    SortSorts(found, ChangeLe);
    SortedReports(found, Sort(found, ChangeLe), listingId, before, after, before.Keys + after.Keys, store.Keys, idOf);
    SortedGrew(store, grown, found, Sort(found, ChangeLe));
  }

  lemma SortedGrew(store: map<Id, ListingChange>, grown: map<Id, ListingChange>, found: seq<ListingChange>,
                   changes: seq<ListingChange>)
    requires Grew(store, grown, found) && multiset(changes) == multiset(found)
    ensures Grew(store, grown, changes)
  {
    forall c ensures c in changes <==> c in found { assert c in multiset(changes) <==> c in multiset(found); }
  }

  lemma SortedReports(found: seq<ListingChange>, changes: seq<ListingChange>, listingId: Id, before: State,
                      after: State, fields: set<Field>, known: set<Id>, idOf: ChangeKey -> Id)
    requires Reports(found, listingId, before, after, fields, known, idOf) && multiset(changes) == multiset(found)
    ensures Reports(changes, listingId, before, after, fields, known, idOf)
  {
    forall c ensures c in changes <==> c in found { assert c in multiset(changes) <==> c in multiset(found); }
    forall i, j | 0 <= i < j < |changes| ensures changes[i].field != changes[j].field {
      if changes[i].field == changes[j].field {
        assert changes[i] in found && changes[j] in found;
        assert changes[i] == changes[j];
        SeenTwice(changes, i, j);
        FoundOnce(found, changes[i]);
        assert false;
      }
    }
  }

  lemma {:induction false} FoundOnce(found: seq<ListingChange>, c: ListingChange)
    requires OncePerField(found)
    ensures multiset(found)[c] <= 1
  {
    if found != [] {
      FoundOnce(found[..|found| - 1], c);
      assert found == found[..|found| - 1] + [found[|found| - 1]];
      if found[|found| - 1] == c { assert c !in found[..|found| - 1]; }
    }
  }

  // ---------- patching ----------

  // The non-null canonical values.
  function Values(s: State): map<Field, Json> {
    map f | f in s && s[f].value != None :: s[f].value.value
  }

  function Patch(values: map<Field, Json>, changes: seq<ListingChange>): map<Field, Json> {
    if changes == [] then values
    else
      var c := changes[|changes| - 1];
      var rest := Patch(values, changes[..|changes| - 1]);
      if c.newValue == None then rest - {c.field} else rest[c.field := c.newValue.value]
  }

  function Lookup(values: map<Field, Json>, f: Field): Option<Json> {
    if f in values then Some(values[f]) else None
  }

  lemma {:induction false} PatchAt(values: map<Field, Json>, changes: seq<ListingChange>, f: Field, c: ListingChange)
    requires OncePerField(changes) && c in changes && c.field == f
    ensures Lookup(Patch(values, changes), f) == c.newValue
  {
    var init, last := changes[..|changes| - 1], changes[|changes| - 1];
    assert changes == init + [last];
    if c != last {
      var i :| 0 <= i < |init| && init[i] == c;
      assert changes[i].field != last.field;
      PatchAt(values, init, f, c);
    }
  }

  lemma {:induction false} PatchElsewhere(values: map<Field, Json>, changes: seq<ListingChange>, f: Field)
    requires forall c :: c in changes ==> c.field != f
    ensures Lookup(Patch(values, changes), f) == Lookup(values, f)
  {
    if changes != [] {
      assert changes[|changes| - 1] in changes;
      PatchElsewhere(values, changes[..|changes| - 1], f);
    }
  }

  lemma SameLookups(a: map<Field, Json>, b: map<Field, Json>)
    requires forall f :: Lookup(a, f) == Lookup(b, f)
    ensures a == b
  {
    forall f ensures f in a <==> f in b { assert Lookup(a, f) == Lookup(b, f); }
    forall f | f in a ensures a[f] == b[f] { assert Lookup(a, f) == Lookup(b, f); }
  }

  lemma ValuesLookup(s: State, f: Field)
    ensures Lookup(Values(s), f) == ValueAt(s, f)
  {
  }

  lemma PatchedField(changes: seq<ListingChange>, listingId: Id, before: State, after: State, known: set<Id>,
                     idOf: ChangeKey -> Id, f: Field)
    requires Reports(changes, listingId, before, after, before.Keys + after.Keys, known, idOf)
    ensures Lookup(Patch(Values(before), changes), f) ==
            if Differs(before, after, f) && idOf(KeyFor(listingId, before, after, f)) !in known
            then ValueAt(after, f) else ValueAt(before, f)
  {
    if Differs(before, after, f) && idOf(KeyFor(listingId, before, after, f)) !in known {
      PatchAt(Values(before), changes, f, ChangeFor(listingId, before, after, f, idOf));
    } else {
      forall c | c in changes ensures c.field != f {
        assert IsNew(c, listingId, before, after, known, idOf);
      }
      PatchElsewhere(Values(before), changes, f);
      ValuesLookup(before, f);
    }
  }

  // Patching the old values with the reported changes gives the new values exactly when no transition
  // that is needed was already in the store.
  lemma PatchIff(changes: seq<ListingChange>, listingId: Id, before: State, after: State, known: set<Id>,
                 idOf: ChangeKey -> Id)
    requires Reports(changes, listingId, before, after, before.Keys + after.Keys, known, idOf)
    ensures Patch(Values(before), changes) == Values(after) <==>
            forall f :: Differs(before, after, f) ==> idOf(KeyFor(listingId, before, after, f)) !in known
  {
    forall f ensures Lookup(Patch(Values(before), changes), f) ==
                     if Differs(before, after, f) && idOf(KeyFor(listingId, before, after, f)) !in known
                     then ValueAt(after, f) else ValueAt(before, f) {
      PatchedField(changes, listingId, before, after, known, idOf, f);
    }
    if forall f :: Differs(before, after, f) ==> idOf(KeyFor(listingId, before, after, f)) !in known {
      forall f ensures Lookup(Patch(Values(before), changes), f) == Lookup(Values(after), f) { ValuesLookup(after, f); }
      SameLookups(Patch(Values(before), changes), Values(after));
    } else {
      var f :| Differs(before, after, f) && idOf(KeyFor(listingId, before, after, f)) in known;
      ValuesLookup(after, f);
    }
  }

  lemma HeadIsMember<T>(s: seq<T>)
    ensures s == [] || s[0] in s
  {
  }

  // With the store it left behind, the same call reports nothing and leaves that store as it is.
  lemma RepeatReportsNothing(changes: seq<ListingChange>, again: seq<ListingChange>, listingId: Id, before: State,
                             after: State, store: map<Id, ListingChange>, grown: map<Id, ListingChange>,
                             regrown: map<Id, ListingChange>, idOf: ChangeKey -> Id)
    requires Reports(changes, listingId, before, after, before.Keys + after.Keys, store.Keys, idOf)
    requires Grew(store, grown, changes)
    requires Reports(again, listingId, before, after, before.Keys + after.Keys, grown.Keys, idOf)
    requires Grew(grown, regrown, again)
    ensures again == [] && regrown == grown
  {
    HeadIsMember(again);
    forall c ensures c !in again {
      if IsNew(c, listingId, before, after, store.Keys, idOf) { assert c in changes; }
    }
  }
}
