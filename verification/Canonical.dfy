// services/dedupe/service.py: the canonical value of each field of a cluster, and the change log.
module Canonical {
  import opened Prelude
  import opened Sorting
  import opened Clustering

  type Field = string

  type Json = string  // a non-null value; null is None

  type Time = int

  datatype Fact = Fact(factId: Id, field: Field, value: Option<Json>, confidence: Option<real>, extractedAt: Time)

  // linked lists the fact ids of the listing's evidence links.
  datatype ListingInput = ListingInput(id: Id, source: string, facts: seq<Fact>, linked: seq<Id>)

  datatype Candidate = Candidate(trust: real, observedAt: Time, confidence: real, factId: Id, value: Json)

  datatype Reason = Only | Trust | Recency | Confidence | TieBreaker

  datatype CanonicalField = CanonicalField(factId: Id, value: Option<Json>, reason: Reason, trust: real,
                                           observedAt: Time, confidence: real)

  // ---------- the winner ----------

  predicate RankLe(a: Candidate, b: Candidate) {
    a.trust < b.trust || (a.trust == b.trust &&
      (a.observedAt < b.observedAt || (a.observedAt == b.observedAt &&
        (a.confidence < b.confidence || (a.confidence == b.confidence && a.factId <= b.factId)))))
  }

  lemma RankIsTotalPreorder()
    ensures TotalPreorder(RankLe)
  {
  }

  ghost predicate DistinctFacts(cs: seq<Candidate>) {
    forall i, j :: 0 <= i < j < |cs| ==> cs[i].factId != cs[j].factId
  }

  function Winner(cs: seq<Candidate>): Candidate
    requires cs != []
  {
    RankIsTotalPreorder();
    SortSorts(cs, RankLe);
    Sort(cs, RankLe)[|cs| - 1]
  }

  function RunnerUp(cs: seq<Candidate>): Option<Candidate>
    requires cs != []
  {
    RankIsTotalPreorder();
    SortSorts(cs, RankLe);
    if |cs| == 1 then None else Some(Sort(cs, RankLe)[|cs| - 2])
  }

  function WinnerReason(winner: Candidate, runnerUp: Option<Candidate>): Reason {
    if runnerUp == None then Only
    else if winner.trust != runnerUp.value.trust then Trust
    else if winner.observedAt != runnerUp.value.observedAt then Recency
    else if winner.confidence != runnerUp.value.confidence then Confidence
    else TieBreaker
  }

  lemma SortedCandidates(cs: seq<Candidate>)
    requires cs != []
    ensures var s := Sort(cs, RankLe);
            |s| == |cs| && Sorted(s, RankLe) && multiset(s) == multiset(cs) && forall c :: c in cs <==> c in s
  {
    RankIsTotalPreorder();
    SortSorts(cs, RankLe);
    var s := Sort(cs, RankLe);
    forall c ensures c in cs <==> c in s { assert c in multiset(cs) <==> c in multiset(s); }
  }

  lemma WinnerIsGreatest(cs: seq<Candidate>)
    requires cs != []
    ensures Winner(cs) in cs && forall c :: c in cs ==> RankLe(c, Winner(cs))
  {
    hide RankLe;
    SortedCandidates(cs);
    RankIsTotalPreorder();
    forall c | c in cs ensures RankLe(c, Winner(cs)) { LastIsGreatest(Sort(cs, RankLe), c, RankLe); }
  }

  // Every candidate but the winner ranks at most as high as the runner-up.
  lemma RunnerUpIsSecond(cs: seq<Candidate>)
    requires DistinctFacts(cs) && |cs| > 1
    ensures RunnerUp(cs).Some? && RunnerUp(cs).value in cs && RunnerUp(cs).value != Winner(cs)
    ensures forall c :: c in cs && c != Winner(cs) ==> RankLe(c, RunnerUp(cs).value)
  {
    SortedCandidates(cs);
    RankIsTotalPreorder();
    hide RankLe;
    var s := Sort(cs, RankLe);
    LastTwoDiffer(cs, s);
    forall c | c in cs && c != Winner(cs) ensures RankLe(c, RunnerUp(cs).value) { SecondIsGreatest(s, c); }
  }

  lemma LastTwoDiffer(cs: seq<Candidate>, s: seq<Candidate>)
    requires DistinctFacts(cs) && multiset(s) == multiset(cs) && |s| > 1
    ensures s[|s| - 2] != s[|s| - 1]
  {
    if s[|s| - 2] == s[|s| - 1] {
      SeenTwice(s, |s| - 2, |s| - 1);
      DistinctFactsOnce(cs, s[|s| - 1]);
      assert false;
    }
  }

  lemma SecondIsGreatest(s: seq<Candidate>, c: Candidate)
    requires Sorted(s, RankLe) && |s| > 1 && c in s && c != s[|s| - 1]
    ensures RankLe(c, s[|s| - 2])
  {
    RankIsTotalPreorder();
    PrefixSorted(s, RankLe);
    assert s == s[..|s| - 1] + [s[|s| - 1]];
    LastIsGreatest(s[..|s| - 1], c, RankLe);
  }

  lemma {:induction false} DistinctFactsOnce(cs: seq<Candidate>, c: Candidate)
    requires DistinctFacts(cs)
    ensures multiset(cs)[c] <= 1
  {
    if cs != [] {
      var init := cs[..|cs| - 1];
      DistinctFactsOnce(init, c);
      assert cs == init + [cs[|cs| - 1]];
      if cs[|cs| - 1] == c { assert c !in init; }
    }
  }

  lemma SameFactSameCandidate(cs: seq<Candidate>, a: Candidate, b: Candidate)
    requires DistinctFacts(cs) && a in cs && b in cs && a.factId == b.factId
    ensures a == b
  {
    var i :| 0 <= i < |cs| && cs[i] == a;
    var j :| 0 <= j < |cs| && cs[j] == b;
  }

  // With distinct fact ids the winner is the greatest candidate, and nothing else is.
  lemma WinnerIff(cs: seq<Candidate>, w: Candidate)
    requires DistinctFacts(cs) && cs != []
    ensures w == Winner(cs) <==> w in cs && forall c :: c in cs ==> RankLe(c, w)
  {
    WinnerIsGreatest(cs);
    if w in cs && forall c :: c in cs ==> RankLe(c, w) {
      assert RankLe(Winner(cs), w) && RankLe(w, Winner(cs));
      SameFactSameCandidate(cs, w, Winner(cs));
    }
  }

  // So the order of the candidates does not matter.
  lemma WinnerIgnoresOrder(a: seq<Candidate>, b: seq<Candidate>)
    requires DistinctFacts(a) && DistinctFacts(b) && a != [] && b != [] && forall c :: c in a <==> c in b
    ensures Winner(a) == Winner(b)
  {
    WinnerIff(a, Winner(a));
    WinnerIff(b, Winner(a));
  }

  // The winner of two clusters' candidates together is the better of their winners.
  lemma MergedWinner(a: seq<Candidate>, b: seq<Candidate>)
    requires DistinctFacts(a + b) && a != [] && b != []
    ensures Winner(a + b) == if RankLe(Winner(a), Winner(b)) then Winner(b) else Winner(a)
  {
    RankIsTotalPreorder();
    WinnerIsGreatest(a);
    WinnerIsGreatest(b);
    var w := if RankLe(Winner(a), Winner(b)) then Winner(b) else Winner(a);
    forall c | c in a + b ensures RankLe(c, w) {
      if c in a { assert RankLe(c, Winner(a)); } else { assert RankLe(c, Winner(b)); }
    }
    WinnerIff(a + b, w);
  }

  // The rivals that tie with w in the components before the named one.
  ghost predicate Tied(reason: Reason, w: Candidate, c: Candidate) {
    match reason
    case Only => true
    case Trust => true
    case Recency => c.trust == w.trust
    case Confidence => c.trust == w.trust && c.observedAt == w.observedAt
    case TieBreaker => c.trust == w.trust && c.observedAt == w.observedAt && c.confidence == w.confidence
  }

  ghost predicate Beats(reason: Reason, w: Candidate, c: Candidate) {
    match reason
    case Only => true
    case Trust => c.trust < w.trust
    case Recency => c.observedAt < w.observedAt
    case Confidence => c.confidence < w.confidence
    case TieBreaker => c.factId < w.factId
  }

  // The reason names the first component in which the winner strictly beats every rival tied before it:
  // some rival is tied up to there, and all such rivals are beaten there.
  lemma ReasonNamesFirstDifference(cs: seq<Candidate>, reason: Reason)
    requires cs != [] && DistinctFacts(cs) && reason == WinnerReason(Winner(cs), RunnerUp(cs))
    ensures var w := Winner(cs);
            && (reason == Only <==> |cs| == 1)
            && (reason != Only ==> exists c :: c in cs && c != w && Tied(reason, w, c))
            && (forall c :: c in cs && c != w && Tied(reason, w, c) ==> Beats(reason, w, c))
  {
    WinnerIsGreatest(cs);
    var w := Winner(cs);
    if |cs| == 1 {
      assert cs == [w];
    } else {
      RunnerUpIsSecond(cs);
      var r := RunnerUp(cs).value;
      assert RankLe(r, w) && Tied(reason, w, r);
      if r.factId == w.factId { SameFactSameCandidate(cs, r, w); }
      forall c | c in cs && c != w && Tied(reason, w, c) ensures Beats(reason, w, c) {
        assert RankLe(c, r) && RankLe(c, w);
        if c.factId == w.factId { SameFactSameCandidate(cs, c, w); }
      }
    }
  }

  // ---------- collecting the candidates ----------

  const LISTING_PREFIX := "/listing/"

  predicate Eligible(linked: set<Id>, f: Fact) {
    LISTING_PREFIX <= f.field && f.value != None && f.confidence != None && f.factId in linked
  }

  function CandidateOf(trust: real, f: Fact): Candidate
    requires f.value != None && f.confidence != None
  {
    Candidate(trust, f.extractedAt, f.confidence.value, f.factId, f.value.value)
  }

  function Candidates(facts: seq<Fact>, trust: real, linked: set<Id>, field: Field): seq<Candidate> {
    if facts == [] then []
    else
      var f := facts[|facts| - 1];
      Candidates(facts[..|facts| - 1], trust, linked, field) +
      if f.field == field && Eligible(linked, f) then [CandidateOf(trust, f)] else []
  }

  function TrustOf(sourceTrust: map<string, real>, source: string): real {
    if source in sourceTrust then sourceTrust[source] else 0.0
  }

  // All candidates for a field, over the listings of the cluster.
  function AllCandidates(members: seq<ListingInput>, sourceTrust: map<string, real>, linked: set<Id>,
                         field: Field): seq<Candidate> {
    if members == [] then []
    else
      var m := members[|members| - 1];
      AllCandidates(members[..|members| - 1], sourceTrust, linked, field) +
      Candidates(m.facts, TrustOf(sourceTrust, m.source), linked, field)
  }

  function At(byField: map<Field, seq<Candidate>>, field: Field): seq<Candidate> {
    if field in byField then byField[field] else []
  }

  method CollectFrom(facts: seq<Fact>, trust: real, linked: set<Id>, before: map<Field, seq<Candidate>>)
    returns (byField: map<Field, seq<Candidate>>)
    requires forall f :: f in before ==> before[f] != []
    ensures forall f :: At(byField, f) == At(before, f) + Candidates(facts, trust, linked, f)
    ensures forall f :: f in byField ==> byField[f] != []
  {
    byField := before;
    for j := 0 to |facts|
      invariant CollectedFrom(before, byField, facts[..j], trust, linked)
    {
      hide CollectedFrom, Candidates;
      var fact := facts[j];
      CollectOne(before, byField, facts, j, trust, linked);
      if Eligible(linked, fact) {
        byField := byField[fact.field := At(byField, fact.field) + [CandidateOf(trust, fact)]];
      }
    }
    assert facts[..|facts|] == facts;
  }

  ghost predicate CollectedFrom(before: map<Field, seq<Candidate>>, after: map<Field, seq<Candidate>>,
                                facts: seq<Fact>, trust: real, linked: set<Id>) {
    && (forall f :: At(after, f) == At(before, f) + Candidates(facts, trust, linked, f))
    && (forall f :: f in after ==> after[f] != [])
  }

  lemma CandidatesOneMore(facts: seq<Fact>, j: nat, trust: real, linked: set<Id>, field: Field)
    requires j < |facts|
    ensures var f := facts[j];
            Candidates(facts[..j + 1], trust, linked, field) ==
            Candidates(facts[..j], trust, linked, field) +
            if f.field == field && Eligible(linked, f) then [CandidateOf(trust, f)] else []
  {
    assert facts[..j + 1][..j] == facts[..j];
  }

  lemma CollectOne(before: map<Field, seq<Candidate>>, byField: map<Field, seq<Candidate>>,
                   facts: seq<Fact>, j: nat, trust: real, linked: set<Id>)
    requires j < |facts| && CollectedFrom(before, byField, facts[..j], trust, linked)
    ensures var f := facts[j];
            var after := if Eligible(linked, f) then byField[f.field := At(byField, f.field) + [CandidateOf(trust, f)]]
                         else byField;
            CollectedFrom(before, after, facts[..j + 1], trust, linked)
  {
    hide Candidates, CandidateOf;
    var f := facts[j];
    var found := if Eligible(linked, f) then [CandidateOf(trust, f)] else [];
    var after := if Eligible(linked, f) then byField[f.field := At(byField, f.field) + found] else byField;
    forall g ensures At(after, g) == At(before, g) + Candidates(facts[..j + 1], trust, linked, g) {
      CandidatesOneMore(facts, j, trust, linked, g);
      CollectAt(before, byField, after, f, found, g);
    }
  }

  lemma CollectAt(before: map<Field, seq<Candidate>>, byField: map<Field, seq<Candidate>>,
                  after: map<Field, seq<Candidate>>, f: Fact, found: seq<Candidate>, g: Field)
    requires after == (if found == [] then byField else byField[f.field := At(byField, f.field) + found])
    ensures At(after, g) == At(byField, g) + if f.field == g then found else []
  {
  }

  method Collect(members: seq<ListingInput>, sourceTrust: map<string, real>, linked: set<Id>)
    returns (byField: map<Field, seq<Candidate>>)
    ensures forall f :: At(byField, f) == AllCandidates(members, sourceTrust, linked, f)
    ensures forall f :: f in byField ==> byField[f] != []
  {
    byField := map[];
    for i := 0 to |members|
      invariant forall f :: At(byField, f) == AllCandidates(members[..i], sourceTrust, linked, f)
      invariant forall f :: f in byField ==> byField[f] != []
    {
      hide Candidates;
      assert members[..i + 1][..i] == members[..i];
      byField := CollectFrom(members[i].facts, TrustOf(sourceTrust, members[i].source), linked, byField);
    }
    assert members[..|members|] == members;
  }

  // The facts some listing of the input has evidence for.
  function LinkedFacts(inputs: seq<ListingInput>): set<Id> {
    set l, x | l in inputs && x in l.linked :: x
  }

  function FieldFrom(cs: seq<Candidate>): CanonicalField
    requires cs != []
  {
    var w := Winner(cs);
    CanonicalField(w.factId, Some(w.value), WinnerReason(w, RunnerUp(cs)), w.trust, w.observedAt, w.confidence)
  }

  method PickWinners(byField: map<Field, seq<Candidate>>) returns (canonical: map<Field, CanonicalField>)
    requires forall f :: f in byField ==> byField[f] != []
    ensures canonical.Keys == byField.Keys
    ensures forall f :: f in byField ==> canonical[f] == FieldFrom(byField[f])
  {
    canonical := map[];
    var todo := byField.Keys;
    while todo != {}
      invariant todo <= byField.Keys && canonical.Keys == byField.Keys - todo
      invariant forall f :: f in canonical ==> canonical[f] == FieldFrom(byField[f])
    {
      hide FieldFrom;
      var f :| f in todo;
      canonical := canonical[f := FieldFrom(byField[f])];
      todo := todo - {f};
    }
  }

  // ---------- the same in the facts' own fields ----------

  // A fact of a member counts for its field when it is about the listing, has a value and a confidence, and some input
  // has evidence for it.
  ghost predicate Contributes(members: seq<ListingInput>, inputs: seq<ListingInput>, field: Field, m: ListingInput,
                              f: Fact) {
    && m in members && f in m.facts && f.field == field && "/listing/" <= field
    && f.value.Some? && f.confidence.Some? && exists l :: l in inputs && f.factId in l.linked
  }

  // The second fact's source is trusted more, or as much with a later fact, or with as late a one of more confidence,
  // or else its id is at least as great.
  ghost predicate NotAbove(sourceTrust: map<string, real>, m: ListingInput, f: Fact, m2: ListingInput, f2: Fact) {
    var t := if m.source in sourceTrust then sourceTrust[m.source] else 0.0;
    var t2 := if m2.source in sourceTrust then sourceTrust[m2.source] else 0.0;
    f.confidence.Some? && f2.confidence.Some? && (t < t2 || (t == t2 &&
      (f.extractedAt < f2.extractedAt || (f.extractedAt == f2.extractedAt &&
        (f.confidence.value < f2.confidence.value ||
         (f.confidence.value == f2.confidence.value && f.factId <= f2.factId))))))
  }

  ghost predicate TakenFrom(sourceTrust: map<string, real>, cf: CanonicalField, m: ListingInput, f: Fact) {
    && cf.factId == f.factId && cf.value == f.value && f.confidence == Some(cf.confidence)
    && cf.observedAt == f.extractedAt
    && cf.trust == if m.source in sourceTrust then sourceTrust[m.source] else 0.0
  }

  // The canonical field is taken from a contributing fact that no other stands above.
  ghost predicate BestOf(members: seq<ListingInput>, inputs: seq<ListingInput>, sourceTrust: map<string, real>,
                         field: Field, cf: CanonicalField) {
    exists m, f :: Contributes(members, inputs, field, m, f) && TakenFrom(sourceTrust, cf, m, f)
      && forall m2, f2 :: Contributes(members, inputs, field, m2, f2) ==> NotAbove(sourceTrust, m2, f2, m, f)
  }

  ghost predicate Gives(facts: seq<Fact>, trust: real, linked: set<Id>, field: Field, c: Candidate, f: Fact) {
    f in facts && f.field == field && Eligible(linked, f) && c == CandidateOf(trust, f)
  }

  lemma {:induction false} CandidatesIff(facts: seq<Fact>, trust: real, linked: set<Id>, field: Field, c: Candidate)
    ensures c in Candidates(facts, trust, linked, field) <==> exists f :: Gives(facts, trust, linked, field, c, f)
  {
    hide CandidateOf;
    if facts != [] {
      var init, last := facts[..|facts| - 1], facts[|facts| - 1];
      CandidatesIff(init, trust, linked, field, c);
      assert facts == init + [last];
      forall f ensures Gives(facts, trust, linked, field, c, f) <==>
                       Gives(init, trust, linked, field, c, f)
                         || (f == last && Gives([last], trust, linked, field, c, f)) {}
      assert Gives(facts, trust, linked, field, c, last) <==>
             last.field == field && Eligible(linked, last) && c == CandidateOf(trust, last);
    }
  }

  // c is what this fact of this member contributes.
  ghost predicate ComesFrom(members: seq<ListingInput>, sourceTrust: map<string, real>, linked: set<Id>, field: Field,
                            c: Candidate, m: ListingInput, f: Fact) {
    m in members && Gives(m.facts, TrustOf(sourceTrust, m.source), linked, field, c, f)
  }

  lemma {:induction false} AllCandidatesIff(members: seq<ListingInput>, sourceTrust: map<string, real>, linked: set<Id>,
                                            field: Field, c: Candidate)
    ensures c in AllCandidates(members, sourceTrust, linked, field) <==>
            exists m, f :: ComesFrom(members, sourceTrust, linked, field, c, m, f)
  {
    hide Gives, Candidates, TrustOf;
    if members != [] {
      var init, last := members[..|members| - 1], members[|members| - 1];
      AllCandidatesIff(init, sourceTrust, linked, field, c);
      CandidatesIff(last.facts, TrustOf(sourceTrust, last.source), linked, field, c);
      assert members == init + [last];
      if m, f :| ComesFrom(init, sourceTrust, linked, field, c, m, f) {
        assert ComesFrom(members, sourceTrust, linked, field, c, m, f);
      }
      if f :| Gives(last.facts, TrustOf(sourceTrust, last.source), linked, field, c, f) {
        assert ComesFrom(members, sourceTrust, linked, field, c, last, f);
      }
      if m, f :| ComesFrom(members, sourceTrust, linked, field, c, m, f) {
        if m in init { assert ComesFrom(init, sourceTrust, linked, field, c, m, f); }
      }
    }
  }

  lemma EligibleMeans(members: seq<ListingInput>, inputs: seq<ListingInput>, field: Field, m: ListingInput, f: Fact)
    requires m in members && f in m.facts && f.field == field
    ensures Eligible(LinkedFacts(inputs), f) <==> Contributes(members, inputs, field, m, f)
  {
    if l :| l in inputs && f.factId in l.linked { assert f.factId in LinkedFacts(inputs); }
  }

  lemma RankMeans(sourceTrust: map<string, real>, m: ListingInput, f: Fact, m2: ListingInput, f2: Fact)
    requires f.value.Some? && f.confidence.Some? && f2.value.Some? && f2.confidence.Some?
    ensures RankLe(CandidateOf(TrustOf(sourceTrust, m.source), f),
                   CandidateOf(TrustOf(sourceTrust, m2.source), f2)) <==>
            NotAbove(sourceTrust, m, f, m2, f2)
  {
  }

  lemma CanonicalMeans(members: seq<ListingInput>, inputs: seq<ListingInput>, sourceTrust: map<string, real>,
                       field: Field)
    ensures var cs := AllCandidates(members, sourceTrust, LinkedFacts(inputs), field);
            && (cs != [] <==> exists m, f :: Contributes(members, inputs, field, m, f))
            && (cs != [] ==> BestOf(members, inputs, sourceTrust, field, FieldFrom(cs)))
  {
    hide AllCandidates, Winner, RankLe, Contributes, NotAbove, LinkedFacts;
    var linked := LinkedFacts(inputs);
    var cs := AllCandidates(members, sourceTrust, linked, field);
    if m, f :| Contributes(members, inputs, field, m, f) {
      ContributesPlainly(members, inputs, field, m, f);
      EligibleMeans(members, inputs, field, m, f);
      var c := CandidateOf(TrustOf(sourceTrust, m.source), f);
      assert ComesFrom(members, sourceTrust, linked, field, c, m, f);
      AllCandidatesIff(members, sourceTrust, linked, field, c);
    }
    if cs != [] {
      WinnerIsGreatest(cs);
      var w := Winner(cs);
      AllCandidatesIff(members, sourceTrust, linked, field, w);
      var m, f :| ComesFrom(members, sourceTrust, linked, field, w, m, f);
      EligibleMeans(members, inputs, field, m, f);
      ContributesPlainly(members, inputs, field, m, f);
      forall m2, f2 | Contributes(members, inputs, field, m2, f2) ensures NotAbove(sourceTrust, m2, f2, m, f) {
        ContributesPlainly(members, inputs, field, m2, f2);
        EligibleMeans(members, inputs, field, m2, f2);
        var c := CandidateOf(TrustOf(sourceTrust, m2.source), f2);
        assert ComesFrom(members, sourceTrust, linked, field, c, m2, f2);
        AllCandidatesIff(members, sourceTrust, linked, field, c);
        RankMeans(sourceTrust, m2, f2, m, f);
      }
      assert TakenFrom(sourceTrust, FieldFrom(cs), m, f);
    }
  }

  lemma ContributesPlainly(members: seq<ListingInput>, inputs: seq<ListingInput>, field: Field, m: ListingInput,
                           f: Fact)
    requires Contributes(members, inputs, field, m, f)
    ensures m in members && f in m.facts && f.field == field && f.value.Some? && f.confidence.Some?
  {
  }

  // Each field with a candidate gets its winner; no other field appears.
  method Canonicalize(members: seq<ListingInput>, inputs: seq<ListingInput>, sourceTrust: map<string, real>)
    returns (canonical: map<Field, CanonicalField>)
    ensures var linked := LinkedFacts(inputs);
            forall f :: f in canonical <==> AllCandidates(members, sourceTrust, linked, f) != []
    ensures var linked := LinkedFacts(inputs);
            forall f :: f in canonical ==> canonical[f] == FieldFrom(AllCandidates(members, sourceTrust, linked, f))
    ensures forall field :: field in canonical <==> exists m, f :: Contributes(members, inputs, field, m, f)
    ensures forall field :: field in canonical ==> BestOf(members, inputs, sourceTrust, field, canonical[field])
  {
    hide Contributes, BestOf;
    var linked := LinkedFacts(inputs);
    var byField := Collect(members, sourceTrust, linked);
    canonical := PickWinners(byField);
    hide FieldFrom, AllCandidates;
    forall f ensures f in canonical <==> AllCandidates(members, sourceTrust, linked, f) != [] {
      assert At(byField, f) == AllCandidates(members, sourceTrust, linked, f);
    }
    forall field
      ensures field in canonical <==> exists m, f :: Contributes(members, inputs, field, m, f)
      ensures field in canonical ==> BestOf(members, inputs, sourceTrust, field, canonical[field])
    {
      CanonicalMeans(members, inputs, sourceTrust, field);
    }
  }

  // ---------- merged clusters ----------

  lemma {:induction false} CandidatesConcat(a: seq<ListingInput>, b: seq<ListingInput>, sourceTrust: map<string, real>,
                                            linked: set<Id>, field: Field)
    ensures AllCandidates(a + b, sourceTrust, linked, field) ==
            AllCandidates(a, sourceTrust, linked, field) + AllCandidates(b, sourceTrust, linked, field)
  {
    if b == [] {
      assert a + b == a;
    } else {
      assert (a + b)[..|a + b| - 1] == a + b[..|b| - 1];
      CandidatesConcat(a, b[..|b| - 1], sourceTrust, linked, field);
    }
  }

  // The candidates without one member, and that member's.
  lemma CandidatesWithout(members: seq<ListingInput>, i: nat, sourceTrust: map<string, real>, linked: set<Id>,
                          field: Field)
    requires i < |members|
    ensures multiset(AllCandidates(members, sourceTrust, linked, field)) ==
            multiset(AllCandidates(members[..i] + members[i + 1..], sourceTrust, linked, field)) +
            multiset(Candidates(members[i].facts, TrustOf(sourceTrust, members[i].source), linked, field))
  {
    var before, m, after := members[..i], members[i], members[i + 1..];
    assert members == before + [m] + after;
    CandidatesConcat(before + [m], after, sourceTrust, linked, field);
    CandidatesConcat(before, [m], sourceTrust, linked, field);
    CandidatesConcat(before, after, sourceTrust, linked, field);
    assert [m][..0] == [];
  }

  // The order of the members does not matter to what the candidates are.
  lemma {:induction false} CandidatesIgnoreOrder(a: seq<ListingInput>, b: seq<ListingInput>,
                                                 sourceTrust: map<string, real>, linked: set<Id>, field: Field)
    requires multiset(a) == multiset(b)
    ensures multiset(AllCandidates(a, sourceTrust, linked, field)) ==
            multiset(AllCandidates(b, sourceTrust, linked, field))
  {
    hide AllCandidates, Candidates;
    if a == [] {
      assert |b| == |multiset(b)| == 0;
    } else {
      var init, m := a[..|a| - 1], a[|a| - 1];
      assert m in multiset(b);
      var i :| 0 <= i < |b| && b[i] == m;
      RemoveSame(a, b, i);
      CandidatesIgnoreOrder(init, b[..i] + b[i + 1..], sourceTrust, linked, field);
      CandidatesWithout(b, i, sourceTrust, linked, field);
      CandidatesWithoutLast(a, sourceTrust, linked, field);
    }
  }

  lemma CandidatesWithoutLast(a: seq<ListingInput>, sourceTrust: map<string, real>, linked: set<Id>, field: Field)
    requires a != []
    ensures var m := a[|a| - 1];
            multiset(AllCandidates(a, sourceTrust, linked, field)) ==
            multiset(AllCandidates(a[..|a| - 1], sourceTrust, linked, field)) +
            multiset(Candidates(m.facts, TrustOf(sourceTrust, m.source), linked, field))
  {
  }

  lemma DistinctFactsIgnoreOrder(a: seq<Candidate>, b: seq<Candidate>)
    requires DistinctFacts(a) && multiset(a) == multiset(b)
    ensures DistinctFacts(b)
  {
    forall i, j | 0 <= i < j < |b| ensures b[i].factId != b[j].factId {
      if b[i].factId == b[j].factId {
        assert b[i] in multiset(a) && b[j] in multiset(a);
        SameFactSameCandidate(a, b[i], b[j]);
        SeenTwice(b, i, j);
        DistinctFactsOnce(a, b[i]);
        assert false;
      }
    }
  }

  // The canonical field of a merged cluster, in whatever order its members come: that of the better of the two parts'
  // winners, but for the reason, which may name another component now that there are more rivals.
  lemma MergedCluster(a: seq<ListingInput>, b: seq<ListingInput>, merged: seq<ListingInput>,
                      sourceTrust: map<string, real>, linked: set<Id>, field: Field)
    requires multiset(merged) == multiset(a + b)
    requires DistinctFacts(AllCandidates(merged, sourceTrust, linked, field))
    ensures var ca, cb := AllCandidates(a, sourceTrust, linked, field), AllCandidates(b, sourceTrust, linked, field);
            var cm := AllCandidates(merged, sourceTrust, linked, field);
            && (cm == [] <==> ca == [] && cb == [])
            && (cm != [] ==>
                  var better := if ca == [] || (cb != [] && RankLe(Winner(ca), Winner(cb))) then cb else ca;
                  better != [] && FieldFrom(cm).(reason := Only) == FieldFrom(better).(reason := Only))
  {
    hide AllCandidates, RankLe, Winner;
    var ca, cb := AllCandidates(a, sourceTrust, linked, field), AllCandidates(b, sourceTrust, linked, field);
    var cm := AllCandidates(merged, sourceTrust, linked, field);
    CandidatesConcat(a, b, sourceTrust, linked, field);
    CandidatesIgnoreOrder(merged, a + b, sourceTrust, linked, field);
    assert |cm| == |multiset(cm)| == |multiset(ca + cb)| == |ca + cb|;
    if cm != [] {
      DistinctFactsIgnoreOrder(cm, ca + cb);
      SameWinner(cm, ca + cb);
      if ca == [] {
        assert ca + cb == cb;
      } else if cb == [] {
        assert ca + cb == ca;
      } else {
        MergedWinner(ca, cb);
      }
    }
  }

  lemma SameWinner(a: seq<Candidate>, b: seq<Candidate>)
    requires DistinctFacts(a) && DistinctFacts(b) && a != [] && b != [] && multiset(a) == multiset(b)
    ensures Winner(a) == Winner(b)
  {
    hide Winner, RankLe, DistinctFacts;
    forall c ensures c in a <==> c in b { assert c in multiset(a) <==> c in multiset(b); }
    WinnerIgnoresOrder(a, b);
  }
}
