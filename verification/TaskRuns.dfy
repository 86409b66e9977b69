// Every run of the acquisition services: submissions, policy changes, waiting, popping, and the start
// and finish of task processing, interleaved in any order.
module TaskRuns {
  import opened Prelude
  import opened Sorting
  import opened PolicyGate
  import opened RateLimiter
  import opened TaskQueue
  import opened Acquisition

  datatype Step =
    | SubmitTask(id: Id, task: Task)
    | SetPolicy(source: SourceId, policy: SourcePolicy)
    | Wait(duration: nat)
    | PopDue
    | BeginTask(index: nat, lag: Lag)
    | FinishTask(id: Id, outcome: Outcome)

  function Initial(clock: Time, rates: map<Domain, DomainPolicy>): World {
    World(clock, map[], rates, map[], map[], [], [], [], [], [], [])
  }

  // An id is submitted once, unattempted; a task is begun when it has been popped and finished when it runs.
  predicate Enabled(w: World, e: Step) {
    match e
    case SubmitTask(id, t) => id !in w.tasks && t.attempt == 0 && t.maxAttempts >= 1
    case BeginTask(i, _) => i < |w.hand|
    case FinishTask(id, _) => id in w.tasks && w.tasks[id].status == Running
    case _ => true
  }

  function TakeFromHand(w: World, i: nat): World
    requires i < |w.hand|
  {
    w.(hand := w.hand[..i] + w.hand[i + 1..])
  }

  function Pop(w: World): World {
    w.(queue := Later(w.queue, w.clock), hand := w.hand + Due(w.queue, w.clock))
  }

  function Next(w: World, e: Step): World
    requires Enabled(w, e)
  {
    match e
    case SubmitTask(id, t) => Submit(w, id, t)
    case SetPolicy(source, policy) => w.(policies := w.policies[source := policy])
    case Wait(d) => w.(clock := w.clock + d)
    case PopDue => Pop(w)
    case BeginTask(i, lag) => Begin(TakeFromHand(w, i), w.hand[i].taskId, lag)
    case FinishTask(id, outcome) => Finish(w, id, outcome)
  }

  ghost predicate IsRun(w: World, es: seq<Step>)
    decreases |es|
  {
    es == [] || (Enabled(w, es[0]) && IsRun(Next(w, es[0]), es[1..]))
  }

  function Run(w: World, es: seq<Step>): World
    requires IsRun(w, es)
    decreases |es|
  {
    if es == [] then w else Run(Next(w, es[0]), es[1..])
  }

  // ---------- where the tasks are ----------

  function Ids(items: seq<QueueItem>): multiset<Id> {
    if items == [] then multiset{} else Ids(items[..|items| - 1]) + multiset{items[|items| - 1].taskId}
  }

  function IdsWith(tasks: map<Id, Task>, status: TaskStatus): set<Id> {
    set id | id in tasks && tasks[id].status == status
  }

  // The queue and the hand together hold each queued task once and nothing else.
  ghost predicate Placed(w: World) {
    && Sorted(w.queue, ItemLe)
    && Ids(w.queue) + Ids(w.hand) == multiset(IdsWith(w.tasks, Queued))
  }

  lemma {:induction false} IdsConcat(a: seq<QueueItem>, b: seq<QueueItem>)
    ensures Ids(a + b) == Ids(a) + Ids(b)
  {
    if b == [] {
      assert a + b == a;
    } else {
      assert (a + b)[..|a + b| - 1] == a + b[..|b| - 1];
      IdsConcat(a, b[..|b| - 1]);
    }
  }

  lemma {:induction false} IdsInsert(items: seq<QueueItem>, x: QueueItem)
    ensures Ids(Insert(items, x, ItemLe)) == Ids(items) + multiset{x.taskId}
  {
    if items == [] {
      assert [x][..0] == [];
    } else if ItemLe(items[|items| - 1], x) {
      assert (items + [x])[..|items|] == items;
    } else {
      var init, last := items[..|items| - 1], items[|items| - 1];
      IdsInsert(init, x);
      assert (Insert(init, x, ItemLe) + [last])[..|Insert(init, x, ItemLe)|] == Insert(init, x, ItemLe);
    }
  }

  lemma IdsOne(x: QueueItem)
    ensures Ids([x]) == multiset{x.taskId}
  {
    assert [x][..0] == [];
  }

  lemma IdsRemove(items: seq<QueueItem>, i: nat)
    requires i < |items|
    ensures Ids(items) == Ids(items[..i] + items[i + 1..]) + multiset{items[i].taskId}
  {
    hide Ids;
    var before, x, after := items[..i], items[i], items[i + 1..];
    assert items == before + ([x] + after);
    IdsConcat(before, [x] + after);
    IdsConcat([x], after);
    IdsConcat(before, after);
    IdsOne(x);
  }

  lemma MultisetWith<T>(s: set<T>, x: T)
    requires x !in s
    ensures multiset(s + {x}) == multiset(s) + multiset{x}
  {
  }

  lemma {:induction false} IdsContain(items: seq<QueueItem>, i: nat)
    requires i < |items|
    ensures items[i].taskId in Ids(items)
  {
    IdsRemove(items, i);
  }

  lemma Cancel<T>(a: multiset<T>, b: multiset<T>, x: T)
    requires a + multiset{x} == b + multiset{x}
    ensures a == b
  {
    assert a == a + multiset{x} - multiset{x} && b == b + multiset{x} - multiset{x};
  }

  // How the queued tasks change when one task is stored.
  lemma StatusSets(tasks: map<Id, Task>, id: Id, t: Task)
    ensures IdsWith(tasks[id := t], Queued) ==
            IdsWith(tasks, Queued) - {id} + if t.status == Queued then {id} else {}
  {
  }

  ghost predicate Stores(w: World, w': World, id: Id) {
    id in w'.tasks && w'.tasks == w.tasks[id := w'.tasks[id]] && w'.hand == w.hand
  }

  // The popped item has been taken, but its task has not moved on yet.
  ghost predicate Taken(w: World, id: Id) {
    && Sorted(w.queue, ItemLe)
    && id in w.tasks
    && Ids(w.queue) + Ids(w.hand) == multiset(IdsWith(w.tasks, Queued) - {id})
  }

  lemma EntersQueue(w: World, w': World, id: Id, at: Time)
    requires Sorted(w.queue, ItemLe) && Ids(w.queue) + Ids(w.hand) == multiset(IdsWith(w.tasks, Queued) - {id})
    requires Stores(w, w', id) && w'.tasks[id].status == Queued
    requires w'.queue == Insert(w.queue, QueueItem(id, at), ItemLe)
    ensures Placed(w')
  {
    ItemLeIsTotalOrder();
    InsertKeepsSorted(w.queue, QueueItem(id, at), ItemLe);
    IdsInsert(w.queue, QueueItem(id, at));
    StatusSets(w.tasks, id, w'.tasks[id]);
    MultisetWith(IdsWith(w.tasks, Queued) - {id}, id);
  }

  lemma StaysOut(w: World, w': World, id: Id)
    requires Sorted(w.queue, ItemLe) && Ids(w.queue) + Ids(w.hand) == multiset(IdsWith(w.tasks, Queued) - {id})
    requires Stores(w, w', id) && w'.tasks[id].status != Queued && w'.queue == w.queue
    ensures Placed(w')
  {
    StatusSets(w.tasks, id, w'.tasks[id]);
  }

  lemma NotQueued(w: World, id: Id)
    requires Placed(w) && (id in w.tasks ==> w.tasks[id].status != Queued)
    ensures Ids(w.queue) + Ids(w.hand) == multiset(IdsWith(w.tasks, Queued) - {id})
  {
    assert IdsWith(w.tasks, Queued) - {id} == IdsWith(w.tasks, Queued);
  }

  lemma SubmitKeepsPlaced(w: World, id: Id, t: Task)
    requires Placed(w) && id !in w.tasks
    ensures Placed(Submit(w, id, t))
  {
    hide Apply, NextAvailable, Insert, AllowedOperations, Ids, Sorted;
    var w' := Submit(w, id, t);
    NotQueued(w, id);
    if Accepts(w, t) { EntersQueue(w, w', id, w'.tasks[id].scheduledAt); } else { StaysOut(w, w', id); }
  }

  lemma PopKeepsPlaced(w: World)
    requires Placed(w)
    ensures Placed(Pop(w))
  {
    PopCutsQueue(w.queue, w.clock);
    IdsConcat(Due(w.queue, w.clock), Later(w.queue, w.clock));
    IdsConcat(w.hand, Due(w.queue, w.clock));
    var k := |Due(w.queue, w.clock)|;
    assert Later(w.queue, w.clock) == w.queue[k..];
  }

  lemma TakeFromPlaced(w: World, i: nat)
    requires Placed(w) && i < |w.hand|
    ensures Taken(TakeFromHand(w, i), w.hand[i].taskId)
    ensures w.tasks[w.hand[i].taskId].status == Queued
  {
    var id := w.hand[i].taskId;
    var left := TakeFromHand(w, i);
    IdsRemove(w.hand, i);
    assert id in Ids(w.queue) + Ids(w.hand);
    assert id in IdsWith(w.tasks, Queued);
    var others := IdsWith(w.tasks, Queued) - {id};
    assert others + {id} == IdsWith(w.tasks, Queued);
    MultisetWith(others, id);
    assert Ids(left.queue) + Ids(left.hand) + multiset{id} == Ids(w.queue) + Ids(w.hand);
    Cancel(Ids(left.queue) + Ids(left.hand), multiset(others), id);
  }

  lemma BeginPlaces(w: World, id: Id, lag: Lag)
    requires Taken(w, id)
    ensures Placed(Begin(w, id, lag))
  {
    var w' := Begin(w, id, lag);
    if MayRun(w, id) && !Starts(w, id, lag) {
      EntersQueue(w, w', id, w'.tasks[id].scheduledAt);
    } else {
      StaysOut(w, w', id);
    }
  }

  lemma FinishKeepsPlaced(w: World, id: Id, outcome: Outcome)
    requires Placed(w) && id in w.tasks && w.tasks[id].status == Running
    ensures Placed(Finish(w, id, outcome))
  {
    var w' := Finish(w, id, outcome);
    NotQueued(w, id);
    if Retries(w.tasks[id], outcome) { EntersQueue(w, w', id, w'.tasks[id].scheduledAt); } else { StaysOut(w, w', id); }
  }

  // ---------- the limiter ----------

  function RunningIn(tasks: map<Id, Task>, d: Domain): set<Id> {
    set id | id in tasks && tasks[id].status == Running && tasks[id].domain == d
  }

  ghost predicate Ledgered(w: World) {
    forall d {:trigger LedgerOf(w, d)} :: LedgerInv(RateOf(w, d), LedgerOf(w, d), w.clock)
  }

  // A domain's inflight count is the number of its running tasks, and never above the cap.
  ghost predicate Counted(w: World) {
    forall d {:trigger LedgerOf(w, d)} ::
      LedgerOf(w, d).st.inflight == |RunningIn(w.tasks, d)| <= Max(0, RateOf(w, d).concurrencyCap)
  }

  lemma CallKeepsLedgered(w: World, d: Domain, call: Call)
    requires Ledgered(w)
    ensures Ledgered(WithCall(w, d, call))
  {
    hide LedgerInv, Apply;
    var w' := WithCall(w, d, call);
    forall d2 ensures LedgerInv(RateOf(w', d2), LedgerOf(w', d2), w'.clock) {
      assert LedgerInv(RateOf(w, d2), LedgerOf(w, d2), w.clock);
      if d2 == d {
        ApplyKeepsLedgerInv(RateOf(w, d), LedgerOf(w, d), Event(w.clock, call), w.clock);
      } else {
        SameWindowKeepsLedgerInv(RateOf(w, d2), LedgerOf(w, d2), LedgerOf(w, d2), w.clock, w'.clock);
      }
    }
  }

  lemma SameLedgers(w: World, w': World)
    requires Ledgered(w) && w'.ledgers == w.ledgers && w'.rates == w.rates && w'.clock >= w.clock
    ensures Ledgered(w')
  {
    forall d ensures LedgerInv(RateOf(w', d), LedgerOf(w', d), w'.clock) {
      assert LedgerInv(RateOf(w, d), LedgerOf(w, d), w.clock);
    }
  }

  lemma SubmitKeepsLedgered(w: World, id: Id, t: Task)
    requires Ledgered(w)
    ensures Ledgered(Submit(w, id, t))
  {
    hide Ledgered, Apply;
    if Accepts(w, t) {
      CallKeepsLedgered(w, t.domain, Peek);
      SameLedgers(WithCall(w, t.domain, Peek), Submit(w, id, t));
    } else {
      SameLedgers(w, Submit(w, id, t));
    }
  }

  lemma BeginKeepsLedgered(w: World, id: Id, lag: Lag)
    requires Ledgered(w)
    ensures Ledgered(Begin(w, id, lag))
  {
    hide Ledgered, Apply;
    if id in w.tasks && MayRun(w, id) {
      CallKeepsLedgered(w, w.tasks[id].domain, TryAcquire(lag));
      SameLedgers(WithCall(w, w.tasks[id].domain, TryAcquire(lag)), Begin(w, id, lag));
    } else {
      SameLedgers(w, Begin(w, id, lag));
    }
  }

  lemma FinishKeepsLedgered(w: World, id: Id, outcome: Outcome)
    requires Ledgered(w) && id in w.tasks
    ensures Ledgered(Finish(w, id, outcome))
  {
    hide Ledgered, Apply;
    var w', d, eff := Finish(w, id, outcome), w.tasks[id].domain, Effective(w.tasks[id], outcome);
    var w1 := if Transient(eff) then WithCall(w, d, RegisterError) else w;
    if Transient(eff) { CallKeepsLedgered(w, d, RegisterError); }
    var w2 := WithCall(w1, d, Release(eff == Completed));
    CallKeepsLedgered(w1, d, Release(eff == Completed));
    assert w'.ledgers == w2.ledgers;
    SameLedgers(w2, w');
  }

  function Bit(b: bool): nat { if b then 1 else 0 }

  lemma SizeWithout<T>(s: set<T>, x: T)
    ensures |s| == |s - {x}| + Bit(x in s)
  {
    if x in s { assert s == s - {x} + {x}; } else { assert s == s - {x}; }
  }

  lemma SameOthers(tasks: map<Id, Task>, id: Id, t: Task, d: Domain)
    ensures RunningIn(tasks, d) - {id} == RunningIn(tasks[id := t], d) - {id}
  {
  }

  lemma RunningCount(tasks: map<Id, Task>, id: Id, t: Task)
    requires id in tasks ==> tasks[id].domain == t.domain
    ensures |RunningIn(tasks[id := t], t.domain)| ==
            |RunningIn(tasks, t.domain)| - Bit(id in tasks && tasks[id].status == Running) + Bit(t.status == Running)
    ensures forall d :: d != t.domain ==> RunningIn(tasks[id := t], d) == RunningIn(tasks, d)
  {
    SameOthers(tasks, id, t, t.domain);
    SizeWithout(RunningIn(tasks, t.domain), id);
    SizeWithout(RunningIn(tasks[id := t], t.domain), id);
  }

  // One task is stored, and its domain's inflight count moves with it.
  lemma StoreKeepsCounted(w: World, w': World, id: Id)
    requires Counted(w) && w'.rates == w.rates
    requires id in w'.tasks && w'.tasks == w.tasks[id := w'.tasks[id]]
    requires id in w.tasks ==> w.tasks[id].domain == w'.tasks[id].domain
    requires forall d {:trigger LedgerOf(w', d)} :: d != w'.tasks[id].domain ==>
               LedgerOf(w', d).st.inflight == LedgerOf(w, d).st.inflight
    requires var d := w'.tasks[id].domain;
             && LedgerOf(w', d).st.inflight == LedgerOf(w, d).st.inflight
                  - Bit(id in w.tasks && w.tasks[id].status == Running) + Bit(w'.tasks[id].status == Running)
             && LedgerOf(w', d).st.inflight <= Max(LedgerOf(w, d).st.inflight, RateOf(w, d).concurrencyCap)
    ensures Counted(w')
  {
    RunningCount(w.tasks, id, w'.tasks[id]);
    forall d ensures LedgerOf(w', d).st.inflight == |RunningIn(w'.tasks, d)| <= Max(0, RateOf(w', d).concurrencyCap) {
      assert LedgerOf(w, d).st.inflight == |RunningIn(w.tasks, d)| <= Max(0, RateOf(w, d).concurrencyCap);
    }
  }

  lemma RunningIsInflight(w: World, id: Id)
    requires Counted(w) && id in w.tasks && w.tasks[id].status == Running
    ensures LedgerOf(w, w.tasks[id].domain).st.inflight > 0
  {
    assert id in RunningIn(w.tasks, w.tasks[id].domain);
  }

  // What a call does to every domain's inflight count.
  lemma CallInflight(w: World, d: Domain, call: Call)
    ensures forall d2 {:trigger LedgerOf(WithCall(w, d, call), d2)} :: d2 != d ==>
              LedgerOf(WithCall(w, d, call), d2) == LedgerOf(w, d2)
    ensures LedgerOf(WithCall(w, d, call), d).st.inflight ==
            match call
            case TryAcquire(lag) =>
              LedgerOf(w, d).st.inflight +
              Bit(Decides(RateOf(w, d), LedgerOf(w, d).st, w.clock + lag.ask, w.clock + lag.ask + lag.look))
            case Release(_) => Max(0, LedgerOf(w, d).st.inflight - 1)
            case _ => LedgerOf(w, d).st.inflight
  {
    hide Decides, Delay;
  }

  lemma SameCounts(w: World, w': World, d: Domain)
    requires w'.ledgers == w.ledgers
    ensures LedgerOf(w', d) == LedgerOf(w, d)
  {
  }

  lemma SubmitKeepsCounted(w: World, id: Id, t: Task)
    requires Counted(w) && id !in w.tasks
    ensures Counted(Submit(w, id, t))
  {
    hide Apply, Counted, RunningIn;
    CallInflight(w, t.domain, Peek);
    StoreKeepsCounted(w, Submit(w, id, t), id);
  }

  lemma BeginKeepsCounted(w: World, id: Id, lag: Lag)
    requires Counted(w) && id in w.tasks && w.tasks[id].status == Queued
    ensures Counted(Begin(w, id, lag))
  {
    hide Apply, Counted, RunningIn, Begin, WithCall, NextAvailable;
    var w', d := Begin(w, id, lag), w.tasks[id].domain;
    var called := if MayRun(w, id) then WithCall(w, d, TryAcquire(lag)) else w;
    BeginStores(w, id, lag);
    CallInflight(w, d, TryAcquire(lag));
    forall d2 ensures LedgerOf(w', d2) == LedgerOf(called, d2) { SameCounts(called, w', d2); }
    StoreKeepsCounted(w, w', id);
  }

  lemma BeginStores(w: World, id: Id, lag: Lag)
    requires id in w.tasks
    ensures var w', d := Begin(w, id, lag), w.tasks[id].domain;
            && w'.rates == w.rates && id in w'.tasks && w'.tasks == w.tasks[id := w'.tasks[id]]
            && w'.tasks[id].domain == d && (w'.tasks[id].status == Running <==> Starts(w, id, lag))
            && w'.ledgers == (if MayRun(w, id) then WithCall(w, d, TryAcquire(lag)).ledgers else w.ledgers)
  {
    hide Apply, Decides, Insert, Deferral;
  }

  lemma FinishKeepsCounted(w: World, id: Id, outcome: Outcome)
    requires Counted(w) && id in w.tasks && w.tasks[id].status == Running
    ensures Counted(Finish(w, id, outcome))
  {
    RunningIsInflight(w, id);
    StoreKeepsCounted(w, Finish(w, id, outcome), id);
  }
}
