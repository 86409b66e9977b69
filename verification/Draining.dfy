// A sequential driver of the queue: it moves the clock to the earliest item, pops what is due and
// processes it, one task at a time. Whatever the handlers do, it ends with every task settled.
module Draining {
  import opened Prelude
  import opened Sorting
  import opened PolicyGate
  import opened RateLimiter
  import opened TaskQueue
  import opened Acquisition
  import opened TaskRuns
  import opened TaskAccounts

  // What the surroundings do at one turn; they may answer from the whole state, histories included.
  datatype Turn = Turn(policies: map<SourceId, SourcePolicy>, lag: Lag, outcome: Outcome, duration: nat)

  // ---------- sums over queue items ----------

  function Sum(items: seq<QueueItem>, f: QueueItem -> nat): nat {
    if items == [] then 0 else Sum(items[..|items| - 1], f) + f(items[|items| - 1])
  }

  lemma {:induction false} SumConcat(a: seq<QueueItem>, b: seq<QueueItem>, f: QueueItem -> nat)
    ensures Sum(a + b, f) == Sum(a, f) + Sum(b, f)
  {
    if b == [] {
      assert a + b == a;
    } else {
      assert (a + b)[..|a + b| - 1] == a + b[..|b| - 1];
      SumConcat(a, b[..|b| - 1], f);
    }
  }

  lemma SumOne(x: QueueItem, f: QueueItem -> nat)
    ensures Sum([x], f) == f(x)
  {
    assert [x][..0] == [];
  }

  lemma {:induction false} SumInsert(items: seq<QueueItem>, x: QueueItem, f: QueueItem -> nat)
    ensures Sum(Insert(items, x, ItemLe), f) == Sum(items, f) + f(x)
  {
    if items == [] {
      SumOne(x, f);
    } else if ItemLe(items[|items| - 1], x) {
      assert (items + [x])[..|items|] == items;
    } else {
      var init, last := items[..|items| - 1], items[|items| - 1];
      SumInsert(init, x, f);
      assert (Insert(init, x, ItemLe) + [last])[..|Insert(init, x, ItemLe)|] == Insert(init, x, ItemLe);
    }
  }

  lemma {:induction false} SumLe(items: seq<QueueItem>, f: QueueItem -> nat, g: QueueItem -> nat)
    requires forall x :: x in items ==> f(x) <= g(x)
    ensures Sum(items, f) <= Sum(items, g)
  {
    if items != [] {
      assert items[|items| - 1] in items;
      SumLe(items[..|items| - 1], f, g);
    }
  }

  // ---------- the measure ----------

  function Room(w: World, x: QueueItem): nat {
    if x.taskId in w.tasks then Max(0, w.tasks[x.taskId].maxAttempts - w.tasks[x.taskId].attempt) else 0
  }

  // t comes before one of the bounds that hold the domain back.
  predicate Held(p: DomainPolicy, st: DomainState, t: Time) {
    || (st.lastRequestAt != None && t < st.lastRequestAt.value + p.minDelay)
    || (st.cooldownUntil != None && t < st.cooldownUntil.value)
    || (st.windowStart != None && st.windowCount >= p.budgetPerWindow && t < st.windowStart.value + p.window)
  }

  function Early(w: World, x: QueueItem): nat {
    if x.taskId in w.tasks then
      var d := w.tasks[x.taskId].domain;
      Bit(Held(RateOf(w, d), LedgerOf(w, d).st, x.scheduledAt))
    else 0
  }

  function Remaining(w: World): nat { Sum(w.hand + w.queue, x => Room(w, x)) }

  function EarlyItems(w: World): nat { Sum(w.hand + w.queue, x => Early(w, x)) }

  // A refused domain is held at this moment; at the announced time it no longer is, and nothing else becomes held.
  lemma DeferralClearsHold(p: DomainPolicy, st: DomainState, now: Time, again: Time, scheduledAt: Time)
    requires p.budgetPerWindow >= 1 && scheduledAt <= now < NextAvailable(p, st, now) && now <= again
    ensures var asked := Refreshed(p, st, now);
            && Held(p, st, scheduledAt)
            && !Held(p, Refreshed(p, asked, again), NextAvailable(p, asked, again))
            && (forall t :: Held(p, Refreshed(p, asked, again), t) ==> Held(p, st, t))
  {
  }

  // ---------- the driver ----------

  ghost predicate Sequential(w: World) {
    && Inv(w)
    && (forall id :: id in w.tasks ==> w.tasks[id].status != Running)
    && (forall x :: x in w.hand ==> x.scheduledAt <= w.clock)
    && (forall d {:trigger RateOf(w, d)} :: RateOf(w, d).concurrencyCap >= 1 && RateOf(w, d).budgetPerWindow >= 1)
  }

  function TurnEnd(w: World, turn: Turn): Time { EndAt(Event(w.clock, TryAcquire(turn.lag))) + turn.duration }

  function TakeTurn(w: World, turn: Turn): World
    requires w.hand != []
  {
    Process(w.(hand := w.hand[1..], policies := turn.policies), w.hand[0].taskId, turn.lag, TurnEnd(w, turn),
            turn.outcome)
  }

  function Advance(w: World): World
    requires w.queue != []
  {
    Pop(w.(clock := Max(w.clock, w.queue[0].scheduledAt)))
  }

  lemma SumSame(items: seq<QueueItem>, f: QueueItem -> nat, g: QueueItem -> nat)
    requires forall x :: x in items ==> f(x) == g(x)
    ensures Sum(items, f) == Sum(items, g)
  {
    SumLe(items, f, g);
    SumLe(items, g, f);
  }

  lemma AdvanceKeepsSequential(w: World)
    requires Sequential(w) && w.hand == [] && w.queue != []
    ensures Sequential(Advance(w))
  {
    hide Inv;
    var clock := Max(w.clock, w.queue[0].scheduledAt);
    NextKeepsInv(w, Wait(clock - w.clock));
    NextKeepsInv(w.(clock := clock), PopDue);
    QueueIsSorted(w);
    PopCutsQueue(w.queue, clock);
    forall d ensures RateOf(Advance(w), d) == RateOf(w, d) {}
  }

  lemma QueueIsSorted(w: World)
    requires Inv(w)
    ensures Sorted(w.queue, ItemLe)
  {
  }

  lemma HeadIsDue(items: seq<QueueItem>, now: Time)
    requires Sorted(items, ItemLe) && items != [] && items[0].scheduledAt <= now
    ensures |Later(items, now)| < |items| && Due(items, now) + Later(items, now) == items
  {
    PopCutsQueue(items, now);
    assert items[0] in Due(items, now) + Later(items, now);
    assert items[0] in Due(items, now);
  }

  lemma AdvanceKeepsMeasure(w: World)
    requires Sequential(w) && w.hand == [] && w.queue != []
    ensures Remaining(Advance(w)) == Remaining(w) && EarlyItems(Advance(w)) == EarlyItems(w)
    ensures |Advance(w).queue| < |w.queue|
  {
    var w' := Advance(w);
    HeadIsDue(w.queue, w'.clock);
    assert w'.hand + w'.queue == w.hand + w.queue;
    SumSame(w.hand + w.queue, x => Room(w, x), x => Room(w', x));
    SumSame(w.hand + w.queue, x => Early(w, x), x => Early(w', x));
  }

  // ---------- one turn ----------

  lemma NewPoliciesKeepSequential(w: World, policies: map<SourceId, SourcePolicy>)
    requires Sequential(w)
    ensures Sequential(w.(policies := policies))
  {
    var w' := w.(policies := policies);
    SameLedgers(w, w');
    SameCountsEverywhere(w, w');
    SameAccounts(w, w');
    forall d ensures RateOf(w', d) == RateOf(w, d) {}
  }

  // What a turn writes, apart from the logs and ledgers: the task, and perhaps a new queue item for it.
  ghost predicate TurnMoves(w: World, w': World, id: Id)
    requires w.hand != []
  {
    && id in w.tasks && id in w'.tasks && w'.tasks == w.tasks[id := w'.tasks[id]]
    && w'.hand == w.hand[1..] && w'.clock >= w.clock
    && w'.tasks[id].status != Running
    && w'.queue == if w'.tasks[id].status == Queued
                   then Insert(w.queue, QueueItem(id, w'.tasks[id].scheduledAt), ItemLe) else w.queue
  }

  lemma HandIsQueued(w: World)
    requires Inv(w) && w.hand != []
    ensures var id := w.hand[0].taskId;
            && id in w.tasks && w.tasks[id].status == Queued
            && (forall y :: y in w.hand[1..] + w.queue ==> y.taskId != id)
  {
    var id := w.hand[0].taskId;
    var left := TakeFromHand(w, 0);
    assert left.hand == w.hand[1..];
    TakeFromPlaced(w, 0);
    IdsConcat(left.hand, left.queue);
    forall y | y in left.hand + left.queue ensures y.taskId != id {
      var i :| 0 <= i < |left.hand + left.queue| && (left.hand + left.queue)[i] == y;
      IdsContain(left.hand + left.queue, i);
      assert y.taskId in multiset(IdsWith(left.tasks, Queued) - {id});
    }
  }

  // What the three branches of process_task write, and what finishing writes.
  ghost predicate Writes(w: World, w': World, id: Id) {
    && id in w.tasks && id in w'.tasks && w'.tasks == w.tasks[id := w'.tasks[id]]
    && w'.hand == w.hand && w'.rates == w.rates
    && w'.tasks[id].maxAttempts == w.tasks[id].maxAttempts && w'.tasks[id].domain == w.tasks[id].domain
  }

  lemma StartWrites(w: World, id: Id, lag: Lag)
    requires Starts(w, id, lag)
    ensures var w' := Start(w, id, lag);
            && Writes(w, w', id) && w'.queue == w.queue
            && w'.tasks[id].status == Running && w'.tasks[id].attempt == w.tasks[id].attempt + 1
  {
  }

  lemma FinishWrites(w: World, id: Id, outcome: Outcome)
    requires id in w.tasks
    ensures var w' := Finish(w, id, outcome);
            && Writes(w, w', id) && w'.tasks[id].attempt == w.tasks[id].attempt
            && w'.tasks[id].status != Running
            && w'.queue == if w'.tasks[id].status == Queued
                           then Insert(w.queue, QueueItem(id, w'.tasks[id].scheduledAt), ItemLe) else w.queue
  {
    hide Apply;
    if Retries(w.tasks[id], outcome) {
    } else if Transient(Effective(w.tasks[id], outcome)) {
    } else {
    }
  }

  lemma WithoutStartWrites(w: World, id: Id, lag: Lag)
    requires id in w.tasks && !Starts(w, id, lag)
    ensures var w' := Begin(w, id, lag);
            && Writes(w, w', id) && w'.tasks[id].attempt == w.tasks[id].attempt
            && w'.tasks[id].status == (if MayRun(w, id) then Queued else Denied)
            && w'.queue == if MayRun(w, id)
                           then Insert(w.queue, QueueItem(id, w'.tasks[id].scheduledAt), ItemLe) else w.queue
  {
  }

  lemma ProcessWrites(w: World, id: Id, lag: Lag, later: Time, outcome: Outcome)
    requires id in w.tasks
    ensures var w' := Process(w, id, lag, later, outcome);
            && Writes(w, w', id) && w'.clock == later
            && w'.tasks[id].attempt == w.tasks[id].attempt + Bit(Starts(w, id, lag))
            && w'.tasks[id].status != Running
            && w'.queue == if w'.tasks[id].status == Queued
                           then Insert(w.queue, QueueItem(id, w'.tasks[id].scheduledAt), ItemLe) else w.queue
  {
    if Starts(w, id, lag) {
      StartWrites(w, id, lag);
      FinishWrites(Start(w, id, lag).(clock := later), id, outcome);
    } else {
      WithoutStartWrites(w, id, lag);
    }
  }

  lemma TurnKeepsInv(w: World, turn: Turn)
    requires Sequential(w) && w.hand != [] && turn.policies == w.policies
    ensures Inv(TakeTurn(w, turn))
  {
    hide Inv, Begin, Start, Finish;
    HandIsQueued(w);
    var id, left, lag := w.hand[0].taskId, w.(hand := w.hand[1..]), turn.lag;
    assert TakeFromHand(w, 0) == left && left.(policies := turn.policies) == left;
    NextKeepsInv(w, BeginTask(0, lag));
    var begun := Begin(left, id, lag);
    BeginStarts(left, id, lag);
    WaitKeepsInv(begun, TurnEnd(w, turn) - begun.clock);
    if Starts(left, id, lag) {
      StartWrites(left, id, lag);
      NextKeepsInv(begun.(clock := TurnEnd(w, turn)), FinishTask(id, turn.outcome));
    }
  }

  lemma WaitKeepsInv(w: World, duration: nat)
    requires Inv(w)
    ensures Inv(w.(clock := w.clock + duration))
  {
    hide Inv;
    NextKeepsInv(w, Wait(duration));
  }

  lemma BeginStarts(w: World, id: Id, lag: Lag)
    requires id in w.tasks
    ensures w.clock <= Begin(w, id, lag).clock <= EndAt(Event(w.clock, TryAcquire(lag)))
    ensures Starts(w, id, lag) ==> Begin(w, id, lag) == Start(w, id, lag)
  {
    hide Decides, Apply, Deferral;
  }

  lemma TurnEffect(w: World, turn: Turn)
    requires Sequential(w) && w.hand != [] && turn.policies == w.policies
    ensures TurnMoves(w, TakeTurn(w, turn), w.hand[0].taskId)
    ensures TakeTurn(w, turn).rates == w.rates
  {
    hide Process;
    HandIsQueued(w);
    ProcessWrites(w.(hand := w.hand[1..]), w.hand[0].taskId, turn.lag, TurnEnd(w, turn), turn.outcome);
    assert w.(hand := w.hand[1..], policies := turn.policies) == w.(hand := w.hand[1..]);
  }

  lemma MovesKeepSequential(w: World, w': World)
    requires Sequential(w) && w.hand != [] && TurnMoves(w, w', w.hand[0].taskId) && w'.rates == w.rates && Inv(w')
    ensures Sequential(w')
  {
    forall d ensures RateOf(w', d) == RateOf(w, d) {}
  }

  lemma TurnKeepsSequential(w: World, turn: Turn)
    requires Sequential(w) && w.hand != [] && turn.policies == w.policies
    ensures Sequential(TakeTurn(w, turn))
  {
    TurnKeepsInv(w, turn);
    TurnEffect(w, turn);
    MovesKeepSequential(w, TakeTurn(w, turn));
  }

  // ---------- the measure decreases ----------

  // How a sum over the live items changes with a turn, for a weight that leaves the other items' alone.
  lemma TurnSums(w: World, w': World, f: QueueItem -> nat, g: QueueItem -> nat)
    requires w.hand != [] && TurnMoves(w, w', w.hand[0].taskId)
    requires forall y :: y in w.hand[1..] + w.queue ==> g(y) <= f(y)
    ensures var id := w.hand[0].taskId;
            Sum(w'.hand + w'.queue, g) + f(w.hand[0]) <=
            Sum(w.hand + w.queue, f) +
            if w'.tasks[id].status == Queued then g(QueueItem(id, w'.tasks[id].scheduledAt)) else 0
  {
    var id, x := w.hand[0].taskId, w.hand[0];
    assert w.hand + w.queue == [x] + (w.hand[1..] + w.queue);
    SumConcat([x], w.hand[1..] + w.queue, f);
    SumOne(x, f);
    SumLe(w.hand[1..] + w.queue, g, f);
    SumConcat(w'.hand, w'.queue, g);
    SumConcat(w.hand[1..], w.queue, g);
    if w'.tasks[id].status == Queued {
      SumInsert(w.queue, QueueItem(id, w'.tasks[id].scheduledAt), g);
    }
  }

  lemma TurnRoom(w: World, turn: Turn)
    requires Sequential(w) && w.hand != [] && turn.policies == w.policies
    ensures var x, w' := w.hand[0], TakeTurn(w, turn);
            && Room(w, x) > 0
            && (w'.tasks[x.taskId].status == Queued ==>
                  Room(w', QueueItem(x.taskId, w'.tasks[x.taskId].scheduledAt)) ==
                  Room(w, x) - Bit(Starts(w.(hand := w.hand[1..]), x.taskId, turn.lag)))
  {
    hide Process;
    HandIsQueued(w);
    var id, left := w.hand[0].taskId, w.(hand := w.hand[1..]);
    assert AccountOf(w, id);
    ProcessWrites(left, id, turn.lag, TurnEnd(w, turn), turn.outcome);
    assert w.(hand := w.hand[1..], policies := turn.policies) == left;
  }

  lemma NotGranted(p: DomainPolicy, st: DomainState, now: Time)
    requires !Grants(p, st, now) && st.inflight < p.concurrencyCap
    ensures now < NextAvailable(p, st, now)
  {
  }

  lemma DeferralIsHeld(w: World, turn: Turn)
    requires Sequential(w) && w.hand != [] && turn.policies == w.policies && turn.lag.look == 0
    requires var left := w.(hand := w.hand[1..]);
             && w.hand[0].taskId in w.tasks && MayRun(left, w.hand[0].taskId)
             && !Starts(left, w.hand[0].taskId, turn.lag)
    ensures var x, w' := w.hand[0], TakeTurn(w, turn);
            && x.taskId in w'.tasks
            && Early(w, x) == 1 && Early(w', QueueItem(x.taskId, w'.tasks[x.taskId].scheduledAt)) == 0
            && (forall y :: Early(w', y) <= Early(w, y))
  {
    hide Grants, NextAvailable, Refreshed, Held, Finish, Start, Ledgered, Placed, AllAccounted, Compliant;
    var x, w' := w.hand[0], TakeTurn(w, turn);
    var d := w.tasks[x.taskId].domain;
    var p, st, looked := RateOf(w, d), LedgerOf(w, d).st, w.clock + turn.lag.ask;
    assert st.inflight == 0 by {
      assert RunningIn(w.tasks, d) == {};
      assert st.inflight == |RunningIn(w.tasks, d)|;
    }
    assert p.concurrencyCap >= 1 && p.budgetPerWindow >= 1;
    DecidesIff(p, st, looked, looked);
    NotGranted(p, st, looked);
    DeferralClearsHold(p, st, looked, looked + turn.lag.again, x.scheduledAt);
    assert w' == Defer(w.(hand := w.hand[1..]), x.taskId, turn.lag).(clock := TurnEnd(w, turn));
    assert LedgerOf(w', d).st == Refreshed(p, Refreshed(p, st, looked), looked + turn.lag.again);
    forall d2 ensures RateOf(w', d2) == RateOf(w, d2) && (d2 != d ==> LedgerOf(w', d2) == LedgerOf(w, d2)) {}
    assert w'.tasks == w.tasks[x.taskId := w'.tasks[x.taskId]] && w'.tasks[x.taskId].domain == d;
    forall y ensures Early(w', y) <= Early(w, y) {
      assert y.taskId in w'.tasks <==> y.taskId in w.tasks;
      if y.taskId in w.tasks { assert w'.tasks[y.taskId].domain == w.tasks[y.taskId].domain; }
    }
  }

  // Every turn whose deciding readings coincide uses up an attempt or settles its task, or else it only moves one early
  // item to its domain's ready time. No other turn adds anything.
  lemma TurnDecreases(w: World, turn: Turn)
    requires Sequential(w) && w.hand != [] && turn.policies == w.policies
    ensures var w' := TakeTurn(w, turn);
            turn.lag.look == 0 ==>
              || Remaining(w') < Remaining(w)
              || (Remaining(w') == Remaining(w) && EarlyItems(w') < EarlyItems(w))
  {
    var x, w' := w.hand[0], TakeTurn(w, turn);
    HandIsQueued(w);
    TurnEffect(w, turn);
    TurnRoom(w, turn);
    TurnSums(w, w', y => Room(w, y), y => Room(w', y));
    var left := w.(hand := w.hand[1..]);
    if MayRun(left, x.taskId) && !Starts(left, x.taskId, turn.lag) && turn.lag.look == 0 {
      DeferralIsHeld(w, turn);
      TurnSums(w, w', y => Early(w, y), y => Early(w', y));
    }
  }

  // A turn whose deciding readings differ starts nothing: an allowed task is deferred again.
  lemma DriftingTurnStartsNothing(w: World, turn: Turn)
    requires Sequential(w) && w.hand != [] && turn.lag.look > 0
    ensures var w', id := TakeTurn(w, turn), w.hand[0].taskId;
            && id in w.tasks && w'.tasks[id].attempt == w.tasks[id].attempt && w'.calls == w.calls
            && (MayRun(w.(policies := turn.policies), id) ==> w'.tasks[id].status == Queued)
  {
    hide Apply, Deferral, NextAvailable, Insert, Finish, Placed, Ledgered, Counted, AllAccounted, Compliant;
    HandIsQueued(w);
    var id := w.hand[0].taskId;
    var d := w.tasks[id].domain;
    DecidesIff(RateOf(w, d), LedgerOf(w, d).st, w.clock + turn.lag.ask, w.clock + turn.lag.ask + turn.lag.look);
  }

  // ---------- draining ends ----------

  predicate Settled(t: Task) { t.status == Succeeded || t.status == Failed || t.status == Denied }

  lemma EmptyIsSettled(w: World)
    requires Sequential(w) && w.hand == [] && w.queue == []
    ensures forall id :: id in w.tasks ==> Settled(w.tasks[id])
  {
    forall id | id in w.tasks ensures Settled(w.tasks[id]) {
      assert id !in multiset(IdsWith(w.tasks, Queued));
    }
  }

  lemma TurnMakesProgress(w: World, turn: Turn)
    requires Sequential(w) && w.hand != []
    ensures var w' := TakeTurn(w, turn);
            && Sequential(w') && w'.tasks.Keys == w.tasks.Keys
            && (turn.lag.look == 0 ==>
                  || Remaining(w') < Remaining(w)
                  || (Remaining(w') == Remaining(w) && EarlyItems(w') < EarlyItems(w)))
  {
    hide Process, Sequential, Remaining, EarlyItems;
    var w1 := w.(policies := turn.policies);
    NewPoliciesKeepSequential(w, turn.policies);
    PoliciesKeepMeasure(w, turn.policies);
    TurnKeepsSequential(w1, turn);
    TurnDecreases(w1, turn);
    TurnEffect(w1, turn);
    assert TakeTurn(w1, turn) == TakeTurn(w, turn);
  }

  // The driver may take over after any run, once nothing runs and nothing is held in hand.
  lemma ReachableIsSequential(w: World, es: seq<Step>, clock: Time, rates: map<Domain, DomainPolicy>)
    requires Reaches(w, es, clock, rates) && w.hand == []
    requires forall id :: id in w.tasks ==> w.tasks[id].status != Running
    requires forall d :: d in w.rates ==> w.rates[d].concurrencyCap >= 1 && w.rates[d].budgetPerWindow >= 1
    ensures Sequential(w)
  {
    ReachableInv(w, es, clock, rates);
    hide Inv, Reaches;
  }

  // What the surroundings may still do when no more drifting turns are left to them.
  function Steadied(turn: Turn, drifts: nat): Turn {
    if drifts == 0 then turn.(lag := turn.lag.(look := 0)) else turn
  }

  // Draining terminates whatever the surroundings answer, if the deciding readings of an acquire differ in only
  // finitely many turns, and leaves every task settled.
  ghost function Drain(w: World, env: World -> Turn, drifts: nat): (r: World)
    requires Sequential(w)
    ensures Sequential(r) && r.queue == [] && r.hand == []
    ensures r.tasks.Keys == w.tasks.Keys && forall id :: id in r.tasks ==> Settled(r.tasks[id])
    decreases drifts, Remaining(w), EarlyItems(w), |w.queue|
  {
    if w.hand != [] then
      var turn := Steadied(env(w), drifts);
      TurnMakesProgress(w, turn);
      Drain(TakeTurn(w, turn), env, if turn.lag.look > 0 then drifts - 1 else drifts)
    else if w.queue != [] then
      AdvanceKeepsSequential(w);
      AdvanceKeepsMeasure(w);
      Drain(Advance(w), env, drifts)
    else
      EmptyIsSettled(w);
      w
  }

  // ---------- domains that cannot be drained ----------

  // A task of a domain that never grants anything, waiting with the policy's permission.
  ghost predicate Waits(w: World, id: Id, t: Task) {
    && id in w.tasks && w.tasks[id].status == Queued && w.tasks[id].attempt == t.attempt
    && w.tasks[id].domain == t.domain && w.tasks[id].source == t.source && w.tasks[id].taskType == t.taskType
    && Starved(RateOf(w, t.domain)) && MayRun(w, id)
  }

  // The policy of the task's source may change, but keeps allowing it.
  ghost predicate StaysAllowed(es: seq<Step>, t: Task) {
    forall i :: 0 <= i < |es| && es[i].SetPolicy? && es[i].source == t.source ==>
      t.taskType in AllowedOperations(es[i].policy.status)
  }

  lemma StarvedStep(w: World, id: Id, t: Task, e: Step)
    requires Waits(w, id, t) && Enabled(w, e)
    requires e.SetPolicy? && e.source == t.source ==> t.taskType in AllowedOperations(e.policy.status)
    ensures Waits(Next(w, e), id, t)
  {
    hide Apply, Deferral, NextAvailable, Insert, AllowedOperations;
    if e.BeginTask? && w.hand[e.index].taskId == id {
      StarvedNeverDecides(RateOf(w, t.domain), LedgerOf(w, t.domain).st, w.clock + e.lag.ask,
                          w.clock + e.lag.ask + e.lag.look);
    }
  }

  lemma {:induction false} StarvedWaitsForever(w: World, id: Id, t: Task, es: seq<Step>)
    requires Waits(w, id, t) && IsRun(w, es) && StaysAllowed(es, t)
    ensures Waits(TaskRuns.Run(w, es), id, t)
    decreases |es|
  {
    hide Waits, Next;
    if es != [] {
      StarvedStep(w, id, t, es[0]);
      StarvedWaitsForever(Next(w, es[0]), id, t, es[1..]);
    }
  }

  // In a domain without a slot, or with windows but no budget, no accepted task ever starts, let alone settles: what
  // Sequential asks of caps and of budgets for real windows cannot be dropped.
  lemma StarvedNeverSettles(w: World, id: Id, t: Task, es: seq<Step>)
    requires id !in w.tasks && t.attempt == 0 && t.maxAttempts >= 1 && Accepts(w, t) && Starved(RateOf(w, t.domain))
    requires IsRun(Submit(w, id, t), es) && StaysAllowed(es, t)
    ensures var r := TaskRuns.Run(Submit(w, id, t), es);
            id in r.tasks && r.tasks[id].status == Queued && r.tasks[id].attempt == 0
  {
    hide Apply, NextAvailable, Insert;
    StarvedWaitsForever(Submit(w, id, t), id, t, es);
  }

  lemma PoliciesKeepMeasure(w: World, policies: map<SourceId, SourcePolicy>)
    ensures Remaining(w.(policies := policies)) == Remaining(w)
    ensures EarlyItems(w.(policies := policies)) == EarlyItems(w)
  {
    var w' := w.(policies := policies);
    SumSame(w.hand + w.queue, x => Room(w, x), x => Room(w', x));
    SumSame(w.hand + w.queue, x => Early(w, x), x => Early(w', x));
  }
}
