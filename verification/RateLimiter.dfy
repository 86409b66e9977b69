// services/acquisition/rate_limiter.py: per-domain concurrency, spacing, cooldown and budget.
module RateLimiter {
  import opened Prelude

  type Time = int  // microseconds, the resolution of datetime
  type Domain = string

  const SECOND: int := 1_000_000

  datatype DomainPolicy = DomainPolicy(
    concurrencyCap: int,
    minDelay: int,
    errorBackoff: int,
    maxBackoff: int,
    budgetPerWindow: int,
    window: int)

  const DEFAULT_POLICY := DomainPolicy(1, SECOND, 5 * SECOND, 60 * SECOND, 60, 60 * SECOND)

  datatype DomainState = DomainState(
    inflight: nat,
    lastRequestAt: Option<Time>,
    errorCount: nat,
    cooldownUntil: Option<Time>,
    windowStart: Option<Time>,
    windowCount: nat)

  const INITIAL_STATE := DomainState(0, None, 0, None, None, 0)

  // ---------- what one call does to one domain ----------

  // One acquire reads the clock up to four times: at first, then before and while it looks at the next available
  // time, and again when it is refused. A lag says how much time passes from each reading to the next.
  datatype Lag = Lag(ask: nat, look: nat, again: nat)

  const AT_ONCE := Lag(0, 0, 0)

  // A grant is made at the reading that decides it. It remembers the first reading of its acquire, which spaces the
  // next one, and the start of the window it was charged to.
  datatype Grant = Grant(at: Time, stamp: Time, window: Time)

  // The state of a domain together with every grant it has made.
  datatype Ledger = Ledger(st: DomainState, grants: seq<Grant>)

  const NEW_LEDGER := Ledger(INITIAL_STATE, [])

  datatype Call = Peek | TryAcquire(lag: Lag) | Release(success: bool) | RegisterError

  datatype Event = Event(at: Time, call: Call)

  // The last reading of a call.
  function EndAt(e: Event): Time {
    e.at + if e.call.TryAcquire? then e.call.lag.ask + e.call.lag.look + e.call.lag.again else 0
  }

  function Refreshed(p: DomainPolicy, st: DomainState, now: Time): DomainState {
    if st.windowStart == None || now - st.windowStart.value >= p.window
    then st.(windowStart := Some(now), windowCount := 0)
    else st
  }

  function NotBefore(t: Time, bound: Option<Time>): Time {
    if bound == None then t else Max(t, bound.value)
  }

  // The three bounds that hold a domain back, for a state whose window is current.
  function ReadyFrom(p: DomainPolicy, st: DomainState, now: Time): Time {
    var spaced := NotBefore(now, if st.lastRequestAt == None then None else Some(st.lastRequestAt.value + p.minDelay));
    var cooled := NotBefore(spaced, st.cooldownUntil);
    NotBefore(cooled, if st.windowStart != None && st.windowCount >= p.budgetPerWindow
                      then Some(st.windowStart.value + p.window) else None)
  }

  function NextAvailable(p: DomainPolicy, st: DomainState, now: Time): Time {
    ReadyFrom(p, Refreshed(p, st, now), now)
  }

  lemma RefreshTwice(p: DomainPolicy, st: DomainState, now: Time)
    ensures Refreshed(p, Refreshed(p, st, now), now) == Refreshed(p, st, now)
    ensures NextAvailable(p, Refreshed(p, st, now), now) == NextAvailable(p, st, now)
  {
  }

  predicate Grants(p: DomainPolicy, st: DomainState, now: Time) {
    st.inflight < p.concurrencyCap && now >= NextAvailable(p, st, now)
  }

  // What can_acquire compares: a reading of its own with a time computed from the next one.
  predicate Decides(p: DomainPolicy, st: DomainState, asked: Time, looked: Time) {
    st.inflight < p.concurrencyCap && asked >= NextAvailable(p, st, looked)
  }

  // As the available time is never before the reading it is computed from, an acquire is granted exactly when the two
  // readings coincide at a time that is granted.
  lemma DecidesIff(p: DomainPolicy, st: DomainState, asked: Time, looked: Time)
    requires asked <= looked
    ensures Decides(p, st, asked, looked) <==> asked == looked && Grants(p, st, looked)
  {
  }

  // A domain that is full is not looked at.
  function AfterLook(p: DomainPolicy, st: DomainState, looked: Time): DomainState {
    if st.inflight >= p.concurrencyCap then st else Refreshed(p, st, looked)
  }

  // Where a refused acquire defers to.
  function Deferral(p: DomainPolicy, st: DomainState, at: Time, lag: Lag): Time {
    NextAvailable(p, AfterLook(p, st, at + lag.ask + lag.look), at + lag.ask + lag.look + lag.again)
  }

  function Charged(st: DomainState, now: Time): DomainState {
    st.(inflight := st.inflight + 1, lastRequestAt := Some(now), windowCount := st.windowCount + 1)
  }

  function Pow2(k: nat): nat { if k == 0 then 1 else 2 * Pow2(k - 1) }

  // The delay after the k-th error of a streak.
  function Delay(p: DomainPolicy, k: nat): int
    requires k > 0
  {
    Min(p.errorBackoff * Pow2(k - 1), p.maxBackoff)
  }

  function Apply(p: DomainPolicy, l: Ledger, e: Event): Ledger {
    match e.call
    case Peek => l.(st := Refreshed(p, l.st, e.at))
    case TryAcquire(lag) =>
      var asked := e.at + lag.ask;
      var looked := asked + lag.look;
      var st := AfterLook(p, l.st, looked);
      if Decides(p, l.st, asked, looked) then
        var current := Refreshed(p, st, e.at);
        Ledger(Charged(current, e.at), l.grants + [Grant(looked, e.at, current.windowStart.value)])
      else l.(st := Refreshed(p, st, looked + lag.again))
    case Release(success) =>
      var st := l.st.(inflight := Max(0, l.st.inflight - 1));
      l.(st := if success then st.(errorCount := 0, cooldownUntil := None) else st)
    case RegisterError =>
      var k := l.st.errorCount + 1;
      l.(st := l.st.(errorCount := k, cooldownUntil := Some(e.at + Delay(p, k))))
  }

  // ---------- the same in the fields themselves ----------

  ghost predicate WindowOver(p: DomainPolicy, st: DomainState, now: Time) {
    st.windowStart == None || now >= st.windowStart.value + p.window
  }

  ghost predicate BudgetLeft(p: DomainPolicy, st: DomainState, now: Time) {
    if WindowOver(p, st, now) then p.budgetPerWindow > 0 else st.windowCount < p.budgetPerWindow
  }

  // What is known now allows a request at t: the spacing and the cooldown are over, and the budget is not spent or the
  // window has ended.
  ghost predicate MayGoAt(p: DomainPolicy, st: DomainState, now: Time, t: Time) {
    && now <= t
    && (st.lastRequestAt.Some? ==> st.lastRequestAt.value + p.minDelay <= t)
    && (st.cooldownUntil.Some? ==> st.cooldownUntil.value <= t)
    && (BudgetLeft(p, st, now) ||
        (if WindowOver(p, st, now) then now + p.window <= t else st.windowStart.value + p.window <= t))
  }

  ghost predicate Earliest(p: DomainPolicy, st: DomainState, now: Time, t: Time) {
    MayGoAt(p, st, now, t) && forall u :: MayGoAt(p, st, now, u) ==> t <= u
  }

  lemma AvailableIsEarliest(p: DomainPolicy, st: DomainState, now: Time)
    ensures Earliest(p, st, now, NextAvailable(p, st, now))
    ensures forall t :: Earliest(p, st, now, t) ==> t == NextAvailable(p, st, now)
  {
    assert MayGoAt(p, st, now, NextAvailable(p, st, now));
  }

  // A domain grants a request exactly when a slot is free and nothing known now speaks against it.
  lemma DecidesPlainly(p: DomainPolicy, st: DomainState, asked: Time, looked: Time)
    requires asked <= looked
    ensures Decides(p, st, asked, looked) <==>
            st.inflight < p.concurrencyCap && asked == looked && MayGoAt(p, st, looked, looked)
  {
    AvailableIsEarliest(p, st, looked);
    DecidesIff(p, st, asked, looked);
  }

  // x doubled n times.
  ghost function Doubled(x: int, n: nat): int
    decreases n
  {
    if n == 0 then x else Doubled(x + x, n - 1)
  }

  // The delay of the k-th error in a row: the base doubled for each error before it, but no more than the maximum.
  ghost predicate IsBackoff(p: DomainPolicy, k: nat, delay: int)
    requires k > 0
  {
    var doubled := Doubled(p.errorBackoff, k - 1);
    delay <= doubled && delay <= p.maxBackoff && (delay == doubled || delay == p.maxBackoff)
  }

  lemma {:induction false} DoubledByPowers(x: int, n: nat)
    ensures Doubled(x, n) == x * Pow2(n)
    decreases n
  {
    if n > 0 {
      DoubledByPowers(x + x, n - 1);
      assert (x + x) * Pow2(n - 1) == x * (2 * Pow2(n - 1));
    }
  }

  lemma DelayIsBackoff(p: DomainPolicy, k: nat)
    requires k > 0
    ensures IsBackoff(p, k, Delay(p, k))
    ensures forall delay :: IsBackoff(p, k, delay) ==> delay == Delay(p, k)
  {
    DoubledByPowers(p.errorBackoff, k - 1);
  }

  // The first error waits for the base delay.
  lemma FirstBackoff(p: DomainPolicy, delay: int)
    requires IsBackoff(p, 1, delay)
    ensures delay == if p.errorBackoff <= p.maxBackoff then p.errorBackoff else p.maxBackoff
  {
  }

  // What acquiring writes: a grant counts the request, any answer may open a window, nothing else changes.
  ghost predicate Acquired(p: DomainPolicy, st: DomainState, st': DomainState, t0: Time, looked: Time) {
    && st'.inflight == st.inflight + 1 && st'.lastRequestAt == Some(t0)
    && st'.errorCount == st.errorCount && st'.cooldownUntil == st.cooldownUntil
    && (p.window > 0 ==>
          if WindowOver(p, st, looked) then st'.windowStart == Some(looked) && st'.windowCount == 1
          else st'.windowStart == st.windowStart && st'.windowCount == st.windowCount + 1)
  }

  ghost predicate Untouched(st: DomainState, st': DomainState) {
    && st'.inflight == st.inflight && st'.lastRequestAt == st.lastRequestAt
    && st'.errorCount == st.errorCount && st'.cooldownUntil == st.cooldownUntil
  }

  lemma AcquireWrites(p: DomainPolicy, l: Ledger, t0: Time, lag: Lag)
    ensures var l', looked := Apply(p, l, Event(t0, TryAcquire(lag))), t0 + lag.ask + lag.look;
            if Decides(p, l.st, t0 + lag.ask, looked)
            then Acquired(p, l.st, l'.st, t0, looked) && |l'.grants| == |l.grants| + 1 && l.grants <= l'.grants
            else Untouched(l.st, l'.st) && l'.grants == l.grants
  {
    hide NextAvailable;
  }

  lemma DefersPlainly(p: DomainPolicy, st: DomainState, t0: Time, lag: Lag)
    ensures t0 + lag.ask + lag.look + lag.again <= Deferral(p, st, t0, lag)
    ensures lag == AT_ONCE ==> Earliest(p, st, t0, Deferral(p, st, t0, lag))
  {
    hide NextAvailable, Earliest, BudgetLeft, WindowOver;
    var looked := t0 + lag.ask + lag.look;
    AvailableIsEarliest(p, st, t0);
    NotBeforeNow(p, AfterLook(p, st, looked), looked + lag.again);
    AcquireAtOnce(p, Ledger(st, []), t0);
  }

  lemma NotBeforeNow(p: DomainPolicy, st: DomainState, now: Time)
    ensures now <= NextAvailable(p, st, now)
  {
  }

  function LedgerAt(ledgers: map<Domain, Ledger>, d: Domain): Ledger {
    if d in ledgers then ledgers[d] else NEW_LEDGER
  }

  function AfterCall(ledgers: map<Domain, Ledger>, p: DomainPolicy, d: Domain, e: Event): map<Domain, Ledger> {
    ledgers[d := Apply(p, LedgerAt(ledgers, d), e)]
  }

  // When all readings coincide, an acquire is one decision at one time.
  lemma AcquireAtOnce(p: DomainPolicy, l: Ledger, now: Time)
    ensures var st := Refreshed(p, l.st, now);
            Apply(p, l, Event(now, TryAcquire(AT_ONCE))) ==
            if Grants(p, l.st, now)
            then Ledger(Charged(st, now), l.grants + [Grant(now, now, st.windowStart.value)]) else l.(st := st)
    ensures Deferral(p, l.st, now, AT_ONCE) == NextAvailable(p, l.st, now)
  {
    DecidesIff(p, l.st, now, now);
    RefreshTwice(p, l.st, now);
    hide NextAvailable, Charged;
  }

  // Asking first changes nothing about the answer of an acquire at the same time, and asking again changes nothing at
  // all.
  lemma PeekThenAcquire(m: map<Domain, Ledger>, p: DomainPolicy, d: Domain, now: Time)
    ensures var m' := AfterCall(m, p, d, Event(now, Peek));
            var e, st, st' := Event(now, TryAcquire(AT_ONCE)), LedgerAt(m, d).st, LedgerAt(m', d).st;
            && AfterCall(m', p, d, Event(now, Peek)) == m'
            && AfterCall(m', p, d, e) == AfterCall(m, p, d, e)
            && (!Grants(p, st, now) ==> AfterCall(m, p, d, e) == m')
            && NextAvailable(p, st', now) == NextAvailable(p, st, now) && Grants(p, st', now) == Grants(p, st, now)
  {
    hide ReadyFrom, Delay, Charged, Decides;
    RefreshTwice(p, LedgerAt(m, d).st, now);
    AcquireAtOnce(p, LedgerAt(m, d), now);
    AcquireAtOnce(p, LedgerAt(AfterCall(m, p, d, Event(now, Peek)), d), now);
  }

  // The ledgers after can_acquire, and after the updates of a grant.
  ghost function Looked(m: map<Domain, Ledger>, p: DomainPolicy, d: Domain, looked: Time): map<Domain, Ledger> {
    if LedgerAt(m, d).st.inflight >= p.concurrencyCap then m[d := LedgerAt(m, d)]
    else AfterCall(m, p, d, Event(looked, Peek))
  }

  ghost function ChargedTo(m: map<Domain, Ledger>, d: Domain, now: Time, looked: Time): map<Domain, Ledger>
    requires LedgerAt(m, d).st.windowStart.Some?
  {
    var l := LedgerAt(m, d);
    m[d := Ledger(Charged(l.st, now), l.grants + [Grant(looked, now, l.st.windowStart.value)])]
  }

  // The calls that acquire makes add up to its one step.
  lemma AcquireSteps(m: map<Domain, Ledger>, p: DomainPolicy, d: Domain, t0: Time, lag: Lag)
    ensures var st, looked := LedgerAt(m, d).st, t0 + lag.ask + lag.look;
            var asked := Looked(m, p, d, looked);
            var current := AfterCall(asked, p, d, Event(t0, Peek));
            && LedgerAt(asked, d).st == AfterLook(p, st, looked)
            && Deferral(p, st, t0, lag) == NextAvailable(p, LedgerAt(asked, d).st, looked + lag.again)
            && LedgerAt(current, d).st.windowStart.Some?
            && AfterCall(m, p, d, Event(t0, TryAcquire(lag))) ==
               if Decides(p, st, t0 + lag.ask, looked) then ChargedTo(current, d, t0, looked)
               else AfterCall(asked, p, d, Event(looked + lag.again, Peek))
  {
    hide Decides, NextAvailable, Delay, Charged;
  }

  lemma CallLeaves(m: map<Domain, Ledger>, p: DomainPolicy, d: Domain, e: Event)
    ensures LedgerAt(AfterCall(m, p, d, e), d) == Apply(p, LedgerAt(m, d), e)
  {
  }

  lemma Touched(m: map<Domain, Ledger>, p: DomainPolicy, d: Domain, e: Event)
    ensures var m' := m[d := LedgerAt(m, d)];
            LedgerAt(m', d) == LedgerAt(m, d) && AfterCall(m', p, d, e) == AfterCall(m, p, d, e)
  {
  }

  function Run(p: DomainPolicy, l: Ledger, es: seq<Event>): Ledger {
    if es == [] then l else Apply(p, Run(p, l, es[..|es| - 1]), es[|es| - 1])
  }

  // The clock never runs backwards: each call begins after the last reading of the one before.
  ghost predicate InOrder(start: Time, es: seq<Event>) {
    && (forall i :: 0 <= i < |es| ==> start <= es[i].at)
    && (forall i, j :: 0 <= i < j < |es| ==> EndAt(es[i]) <= es[j].at)
  }

  function EndOf(start: Time, es: seq<Event>): Time {
    if es == [] then start else EndAt(es[|es| - 1])
  }

  // ---------- the limiter itself ----------

  class DomainRateLimiter {
    var policies: map<Domain, DomainPolicy>
    var states: map<Domain, DomainState>
    ghost var ledgers: map<Domain, Ledger>

    ghost predicate Valid() reads this {
      states.Keys == ledgers.Keys && forall d :: d in states ==> ledgers[d].st == states[d]
    }

    function PolicyFor(d: Domain): DomainPolicy reads this {
      if d in policies then policies[d] else DEFAULT_POLICY
    }

    function StateFor(d: Domain): DomainState reads this {
      if d in states then states[d] else INITIAL_STATE
    }

    ghost function LedgerFor(d: Domain): Ledger reads this {
      LedgerAt(ledgers, d)
    }

    ghost function After(d: Domain, e: Event): map<Domain, Ledger> reads this {
      AfterCall(ledgers, PolicyFor(d), d, e)
    }

    constructor (policies: map<Domain, DomainPolicy>)
      ensures Valid() && this.policies == policies && ledgers == map[]
      ensures forall d :: d !in policies ==>
                PolicyFor(d) == DomainPolicy(1, 1_000_000, 5_000_000, 60_000_000, 60, 60_000_000)
    {
      this.policies := policies;
      states, ledgers := map[], map[];
    }

    method RefreshWindow(d: Domain, now: Time)
      requires Valid()
      modifies this`states, this`ledgers
      ensures Valid()
      ensures ledgers == old(After(d, Event(now, Peek)))
      ensures var st := old(StateFor(d));
              StateFor(d) ==
              if WindowOver(PolicyFor(d), st, now) then st.(windowStart := Some(now), windowCount := 0) else st
    {
      ghost var l := LedgerFor(d);
      var state := StateFor(d);
      var policy := PolicyFor(d);
      if state.windowStart == None {
        state := state.(windowStart := Some(now), windowCount := 0);
      } else if now - state.windowStart.value >= policy.window {
        state := state.(windowStart := Some(now), windowCount := 0);
      }
      states := states[d := state];
      ledgers := ledgers[d := l.(st := state)];
    }

    method NextAvailableTime(d: Domain, now: Time) returns (candidate: Time)
      requires Valid()
      modifies this`states, this`ledgers
      ensures Valid()
      ensures ledgers == old(After(d, Event(now, Peek)))
      ensures candidate == NextAvailable(PolicyFor(d), old(LedgerFor(d)).st, now)
      ensures Earliest(PolicyFor(d), old(StateFor(d)), now, candidate)
    {
      AvailableIsEarliest(PolicyFor(d), StateFor(d), now);
      assert LedgerFor(d).st == StateFor(d);
      hide Valid, AfterCall, LedgerAt, Earliest;
      var policy := PolicyFor(d);
      RefreshWindow(d, now);
      var state := StateFor(d);
      candidate := now;
      if state.lastRequestAt != None {
        candidate := Max(candidate, state.lastRequestAt.value + policy.minDelay);
      }
      if state.cooldownUntil != None {
        candidate := Max(candidate, state.cooldownUntil.value);
      }
      if state.windowStart != None && state.windowCount >= policy.budgetPerWindow {
        candidate := Max(candidate, state.windowStart.value + policy.window);
      }
    }

    method CanAcquire(d: Domain, asked: Time, looked: Time) returns (ok: bool)
      requires Valid() && asked <= looked
      modifies this`states, this`ledgers
      ensures Valid()
      ensures ok == Decides(PolicyFor(d), old(LedgerFor(d)).st, asked, looked)
      ensures var p, st := PolicyFor(d), old(StateFor(d));
              ok <==> st.inflight < p.concurrencyCap && asked == looked && MayGoAt(p, st, looked, looked)
      ensures ledgers == old(Looked(ledgers, PolicyFor(d), d, looked))
    {
      var state := StateFor(d);
      ghost var all := ledgers;
      assert LedgerFor(d).st == state;
      Touched(all, PolicyFor(d), d, Event(looked, Peek));
      DecidesPlainly(PolicyFor(d), state, asked, looked);
      states := states[d := state];
      ledgers := ledgers[d := LedgerFor(d)];
      hide Valid, AfterCall, LedgerAt, NextAvailable;
      if state.inflight >= PolicyFor(d).concurrencyCap { return false; }
      var next := NextAvailableTime(d, looked);
      ok := asked >= next;
    }

    // The last three updates of an acquire that succeeds, all with its first reading.
    method Charge(d: Domain, now: Time, ghost looked: Time)
      requires Valid() && LedgerFor(d).st.windowStart.Some?
      modifies this`states, this`ledgers
      ensures Valid()
      ensures ledgers == old(ChargedTo(ledgers, d, now, looked))
    {
      var state := StateFor(d);
      ghost var l := LedgerFor(d);
      assert l.st == state;
      state := state.(inflight := state.inflight + 1);
      state := state.(lastRequestAt := Some(now));
      state := state.(windowCount := state.windowCount + 1);
      states := states[d := state];
      ledgers := ledgers[d := Ledger(state, l.grants + [Grant(looked, now, state.windowStart.value)])];
    }

    // t0 is read first, t1 and t2 by the question whether the domain can be acquired, t3 only when it cannot.
    method Acquire(d: Domain, t0: Time, t1: Time, t2: Time, t3: Time) returns (deferUntil: Option<Time>)
      requires Valid() && t0 <= t1 <= t2 <= t3
      modifies this`states, this`ledgers
      ensures Valid()
      ensures ledgers == old(After(d, Event(t0, TryAcquire(Lag(t1 - t0, t2 - t1, t3 - t2)))))
      ensures deferUntil == if Decides(PolicyFor(d), old(StateFor(d)), t1, t2) then None
                            else Some(Deferral(PolicyFor(d), old(StateFor(d)), t0, Lag(t1 - t0, t2 - t1, t3 - t2)))
      ensures var p, st := PolicyFor(d), old(StateFor(d));
              && (deferUntil == None <==> st.inflight < p.concurrencyCap && t1 == t2 && MayGoAt(p, st, t2, t2))
              && (if deferUntil == None then Acquired(p, st, StateFor(d), t0, t2) else Untouched(st, StateFor(d)))
              && (deferUntil.Some? ==> t3 <= deferUntil.value)
              && (deferUntil.Some? && t0 == t3 ==> Earliest(p, st, t0, deferUntil.value))
    {
      hide Valid, Apply, AfterCall, LedgerAt, Decides, NextAvailable, Refreshed, ChargedTo, AfterLook, Deferral, Looked;
      hide MayGoAt, Acquired, Untouched, Earliest;
      ghost var p, all, lag := PolicyFor(d), ledgers, Lag(t1 - t0, t2 - t1, t3 - t2);
      StateIsLedgers(d);
      assert t0 + lag.ask == t1 && t1 + lag.look == t2 && t2 + lag.again == t3;
      AcquireSteps(all, p, d, t0, lag);
      DecidesPlainly(p, StateFor(d), t1, t2);
      AcquireWrites(p, LedgerFor(d), t0, lag);
      DefersPlainly(p, StateFor(d), t0, lag);
      CallLeaves(all, p, d, Event(t0, TryAcquire(lag)));
      ghost var asked := Looked(all, p, d, t2);
      ghost var refused, current := AfterCall(asked, p, d, Event(t3, Peek)), AfterCall(asked, p, d, Event(t0, Peek));
      var ok := CanAcquire(d, t1, t2);
      assert ledgers == asked;
      if !ok {
        var next := NextAvailableTime(d, t3);
        assert ledgers == refused;
        StateIsLedgers(d);
        return Some(next);
      }
      RefreshWindow(d, t0);
      assert ledgers == current;
      Charge(d, t0, t2);
      StateIsLedgers(d);
      deferUntil := None;
    }

    lemma StateIsLedgers(d: Domain)
      requires Valid()
      ensures LedgerFor(d).st == StateFor(d)
    {
    }

    method Release(d: Domain, success: bool, ghost now: Time)
      requires Valid()
      modifies this`states, this`ledgers
      ensures Valid()
      ensures ledgers == old(After(d, Event(now, Call.Release(success))))
      ensures var st, st' := old(StateFor(d)), StateFor(d);
              && st'.inflight == (if st.inflight == 0 then 0 else st.inflight - 1)
              && (if success then st'.errorCount == 0 && st'.cooldownUntil == None
                  else st'.errorCount == st.errorCount && st'.cooldownUntil == st.cooldownUntil)
              && st'.lastRequestAt == st.lastRequestAt
              && st'.windowStart == st.windowStart && st'.windowCount == st.windowCount
    {
      var state := StateFor(d);
      ghost var l := LedgerFor(d);
      state := state.(inflight := Max(0, state.inflight - 1));
      if success {
        state := state.(errorCount := 0);
        state := state.(cooldownUntil := None);
      }
      states := states[d := state];
      ledgers := ledgers[d := l.(st := state)];
    }

    method RegisterError(d: Domain, now: Time) returns (cooldown: Time)
      requires Valid()
      modifies this`states, this`ledgers
      ensures Valid()
      ensures ledgers == old(After(d, Event(now, Call.RegisterError)))
      ensures cooldown == now + Delay(PolicyFor(d), old(StateFor(d)).errorCount + 1)
      ensures var st, k := old(StateFor(d)), old(StateFor(d)).errorCount + 1;
              && IsBackoff(PolicyFor(d), k, cooldown - now)
              && StateFor(d) == st.(errorCount := k, cooldownUntil := Some(cooldown))
      ensures var p := PolicyFor(d);
              old(StateFor(d)).errorCount == 0 ==>
                cooldown == now + if p.errorBackoff <= p.maxBackoff then p.errorBackoff else p.maxBackoff
    {
      DelayIsBackoff(PolicyFor(d), StateFor(d).errorCount + 1);
      if StateFor(d).errorCount == 0 { FirstBackoff(PolicyFor(d), Delay(PolicyFor(d), 1)); }
      var state := StateFor(d);
      ghost var l := LedgerFor(d);
      var policy := PolicyFor(d);
      state := state.(errorCount := state.errorCount + 1);
      var backoff := policy.errorBackoff * Pow2(state.errorCount - 1);
      backoff := Min(backoff, policy.maxBackoff);
      cooldown := now + backoff;
      state := state.(cooldownUntil := Some(cooldown));
      states := states[d := state];
      ledgers := ledgers[d := l.(st := state)];
    }
  }

  // ---------- the announced time is exact ----------

  // Whether an acquire succeeds with two later readings, once `now` has been used to ask for the next available time.
  ghost predicate AnnouncedExactly(p: DomainPolicy, st: DomainState, now: Time) {
    forall asked, looked :: now <= asked <= looked ==>
      (Decides(p, Refreshed(p, st, now), asked, looked) <==>
       st.inflight < p.concurrencyCap && asked == looked && NextAvailable(p, st, now) <= looked)
  }

  // The deferral is neither early nor late, for every later acquire whose two readings coincide, exactly when the
  // budget lets anything through at all (or the domain is full, and nothing is claimed).
  lemma NextAvailableExactIff(p: DomainPolicy, st: DomainState, now: Time)
    ensures AnnouncedExactly(p, st, now) <==>
            p.budgetPerWindow >= 1 || p.window <= 0 || st.inflight >= p.concurrencyCap
  {
    var t := Max(now, NextAvailable(p, st, now));
    assert t >= now;
    if p.budgetPerWindow < 1 && p.window > 0 && st.inflight < p.concurrencyCap {
      assert !Decides(p, Refreshed(p, st, now), t, t);
    }
  }

  // At or after the announced time an acquire is still refused when its two readings differ by as little as possible.
  lemma ReadyYetRefused(p: DomainPolicy, st: DomainState, now: Time, lag: Lag)
    requires lag.look > 0
    ensures !Decides(p, st, now + lag.ask, now + lag.ask + lag.look)
    ensures forall l: Ledger :: Apply(p, l, Event(now, TryAcquire(lag))).grants == l.grants
  {
    forall l: Ledger ensures Apply(p, l, Event(now, TryAcquire(lag))).grants == l.grants {
      DecidesIff(p, l.st, now + lag.ask, now + lag.ask + lag.look);
    }
    DecidesIff(p, st, now + lag.ask, now + lag.ask + lag.look);
  }

  // ---------- the rate over whole runs ----------

  function Budget(p: DomainPolicy): nat { Max(0, p.budgetPerWindow) }

  // Grants are in order, and each is at least the minimal delay after the first reading of the one before: what one
  // acquire drifts between its first and its deciding reading is missing from the delay to the next.
  ghost predicate Spaced(p: DomainPolicy, grants: seq<Grant>) {
    && (forall i, j :: 0 <= i < j < |grants| ==> grants[i].at <= grants[j].at)
    && (forall i :: 0 <= i < |grants| ==> grants[i].stamp <= grants[i].at)
    && (forall i :: 0 <= i < |grants| - 1 ==> grants[i].stamp + p.minDelay <= grants[i + 1].at)
  }

  // Each grant lies in its window, and a window's budget later the window is a different, later one.
  ghost predicate Windowed(p: DomainPolicy, grants: seq<Grant>) {
    && (forall i :: 0 <= i < |grants| ==> grants[i].window <= grants[i].at < grants[i].window + p.window)
    && (forall i, j :: 0 <= i && j == i + Budget(p) && j < |grants| ==>
          grants[i].window + p.window <= grants[j].window)
  }

  // The grants charged to the current window are the last windowCount of them.
  ghost predicate Current(p: DomainPolicy, l: Ledger) {
    var n, c := |l.grants|, l.st.windowCount;
    match l.st.windowStart
    case None => n == 0
    case Some(ws) =>
      && c <= n && c <= Budget(p)
      && (forall i :: n - c <= i < n ==> l.grants[i].window == ws)
      && (forall i :: 0 <= i < n - c ==> l.grants[i].window + p.window <= ws)
  }

  ghost predicate LedgerInv(p: DomainPolicy, l: Ledger, now: Time) {
    && l.st.lastRequestAt == (if l.grants == [] then None else Some(l.grants[|l.grants| - 1].stamp))
    && (forall i :: 0 <= i < |l.grants| ==> l.grants[i].at <= now)
    && (l.st.windowStart != None ==> l.st.windowStart.value <= now)
    && Spaced(p, l.grants)
    && (p.window > 0 ==> Windowed(p, l.grants) && Current(p, l))
  }

  lemma RefreshKeepsLedgerInv(p: DomainPolicy, l: Ledger, now: Time, later: Time)
    requires LedgerInv(p, l, now) && now <= later
    ensures LedgerInv(p, l.(st := Refreshed(p, l.st, later)), later)
  {
    var l' := l.(st := Refreshed(p, l.st, later));
    assert Spaced(p, l'.grants);
    if p.window > 0 {
      assert Windowed(p, l'.grants) && Current(p, l');
    }
  }

  lemma GrantKeepsSpaced(p: DomainPolicy, l: Ledger, g: Grant)
    requires Spaced(p, l.grants)
    requires l.grants != [] ==> l.grants[|l.grants| - 1].stamp + p.minDelay <= g.at
    requires g.stamp <= g.at
    requires forall i :: 0 <= i < |l.grants| ==> l.grants[i].at <= g.at
    ensures Spaced(p, l.grants + [g])
  {
  }

  lemma GrantKeepsLedgerInv(p: DomainPolicy, l: Ledger, stamp: Time, at: Time)
    requires LedgerInv(p, l, at) && Grants(p, l.st, at) && Refreshed(p, l.st, at) == l.st && stamp <= at
    ensures var st := Refreshed(p, l.st, stamp);
            st.windowStart.Some? &&
            LedgerInv(p, Ledger(Charged(st, stamp), l.grants + [Grant(at, stamp, st.windowStart.value)]), at)
  {
    GrantKeepsSpaced(p, l, Grant(at, stamp, Refreshed(p, l.st, stamp).windowStart.value));
    if p.window > 0 {
      GrantKeepsWindows(p, l, stamp, at);
    }
    hide Windowed, Spaced, Current, Grants;
  }

  // The invariant does not look at the inflight count, the error count or the cooldown.
  lemma SameWindowKeepsLedgerInv(p: DomainPolicy, l: Ledger, l': Ledger, now: Time, later: Time)
    requires LedgerInv(p, l, now) && now <= later && l'.grants == l.grants
    requires l'.st.lastRequestAt == l.st.lastRequestAt
    requires l'.st.windowStart == l.st.windowStart && l'.st.windowCount == l.st.windowCount
    ensures LedgerInv(p, l', later)
  {
    hide Windowed, Spaced;
  }

  lemma ApplyKeepsLedgerInv(p: DomainPolicy, l: Ledger, e: Event, now: Time)
    requires LedgerInv(p, l, now) && now <= e.at
    ensures LedgerInv(p, Apply(p, l, e), EndAt(e))
  {
    hide LedgerInv, Refreshed, Grants;
    match e.call
    case Peek => RefreshKeepsLedgerInv(p, l, now, e.at);
    case TryAcquire(lag) => AcquireKeepsLedgerInv(p, l, e.at, lag, now);
    case Release(_) => SameWindowKeepsLedgerInv(p, l, Apply(p, l, e), now, e.at);
    case RegisterError => SameWindowKeepsLedgerInv(p, l, Apply(p, l, e), now, e.at);
  }

  lemma AcquireKeepsLedgerInv(p: DomainPolicy, l: Ledger, at: Time, lag: Lag, now: Time)
    requires LedgerInv(p, l, now) && now <= at
    ensures LedgerInv(p, Apply(p, l, Event(at, TryAcquire(lag))), at + lag.ask + lag.look + lag.again)
  {
    hide LedgerInv, Refreshed, Grants, Decides;
    var asked, looked, again := at + lag.ask, at + lag.ask + lag.look, at + lag.ask + lag.look + lag.again;
    RefreshKeepsLedgerInv(p, l, now, looked);
    DecidesIff(p, l.st, asked, looked);
    if Decides(p, l.st, asked, looked) {
      GrantedOnRefresh(p, l, looked);
      GrantKeepsLedgerInv(p, l.(st := Refreshed(p, l.st, looked)), at, looked);
      SameWindowKeepsLedgerInv(p, Apply(p, l, Event(at, TryAcquire(lag))), Apply(p, l, Event(at, TryAcquire(lag))),
                               looked, again);
    } else {
      RefreshKeepsLedgerInv(p, l, now, again);
      RefreshKeepsLedgerInv(p, l.(st := Refreshed(p, l.st, looked)), looked, again);
    }
  }

  lemma GrantedOnRefresh(p: DomainPolicy, l: Ledger, now: Time)
    requires Grants(p, l.st, now)
    ensures Grants(p, Refreshed(p, l.st, now), now) && AfterLook(p, l.st, now) == Refreshed(p, l.st, now)
    ensures Refreshed(p, Refreshed(p, l.st, now), now) == Refreshed(p, l.st, now)
  {
    RefreshTwice(p, l.st, now);
  }

  lemma GrantKeepsWindows(p: DomainPolicy, l: Ledger, stamp: Time, at: Time)
    requires p.window > 0 && Windowed(p, l.grants) && Current(p, l) && stamp <= at
    requires l.st.windowStart != None && l.st.windowStart.value <= at < l.st.windowStart.value + p.window
    requires l.st.windowCount < p.budgetPerWindow
    ensures Refreshed(p, l.st, stamp) == l.st
    ensures var l' := Ledger(Charged(l.st, stamp), l.grants + [Grant(at, stamp, l.st.windowStart.value)]);
            Windowed(p, l'.grants) && Current(p, l')
  {
  }

  lemma {:induction false} RunKeepsLedgerInv(p: DomainPolicy, l: Ledger, es: seq<Event>, start: Time)
    requires LedgerInv(p, l, start) && InOrder(start, es)
    ensures LedgerInv(p, Run(p, l, es), EndOf(start, es))
  {
    if es != [] {
      RunKeepsLedgerInv(p, l, es[..|es| - 1], start);
      ApplyKeepsLedgerInv(p, Run(p, l, es[..|es| - 1]), es[|es| - 1], EndOf(start, es[..|es| - 1]));
    }
  }

  // The grants made in [from, from + length).
  ghost function GrantsIn(grants: seq<Grant>, from: Time, length: int): set<int> {
    set i | 0 <= i < |grants| && from <= grants[i].at < from + length
  }

  lemma {:induction false} SizeWithin(s: set<int>, lo: int, hi: int)
    requires lo <= hi && forall i :: i in s ==> lo <= i < hi
    ensures |s| <= hi - lo
    decreases hi - lo
  {
    if lo < hi {
      SizeWithin(s - {hi - 1}, lo, hi - 1);
    } else {
      assert s == {};
    }
  }

  lemma {:induction false} WindowsBoundRate(p: DomainPolicy, grants: seq<Grant>, from: Time)
    requires Windowed(p, grants) && Spaced(p, grants)
    ensures |GrantsIn(grants, from, p.window)| <= 2 * Budget(p)
  {
    var n, b := |grants|, Budget(p);
    var inside := GrantsIn(grants, from, p.window);
    if n == 0 {
      assert inside == {};
    } else if n - 1 !in inside {
      assert inside == GrantsIn(grants[..n - 1], from, p.window);
      WindowsBoundRate(p, grants[..n - 1], from);
    } else {
      forall i | i in inside ensures n - 2 * b <= i {
        if i < n - 2 * b { LaterByTwoBudgets(p, grants, i); }
      }
      SizeWithin(inside, n - 2 * b, n);
    }
  }

  lemma LaterByTwoBudgets(p: DomainPolicy, grants: seq<Grant>, i: nat)
    requires Windowed(p, grants) && Spaced(p, grants) && i + 2 * Budget(p) < |grants|
    ensures grants[i].at + p.window < grants[|grants| - 1].at
  {
    var b := Budget(p);
    assert grants[i].window + p.window <= grants[i + b].window;
    assert grants[i + b].window + p.window <= grants[i + b + b].window;
    assert grants[i + b + b].at <= grants[|grants| - 1].at;
  }

  lemma LedgerBoundsRate(p: DomainPolicy, l: Ledger, now: Time, from: Time)
    requires LedgerInv(p, l, now)
    ensures |GrantsIn(l.grants, from, p.window)| <= 2 * Budget(p) && Spaced(p, l.grants)
  {
    if p.window > 0 {
      WindowsBoundRate(p, l.grants, from);
    } else {
      assert GrantsIn(l.grants, from, p.window) == {};
    }
  }

  // Any half-open interval as long as the window holds at most two budgets' worth of grants.
  lemma RateBound(p: DomainPolicy, es: seq<Event>, start: Time, from: Time)
    requires InOrder(start, es)
    ensures |GrantsIn(Run(p, NEW_LEDGER, es).grants, from, p.window)| <= 2 * Budget(p)
    ensures Spaced(p, Run(p, NEW_LEDGER, es).grants)
  {
    RunKeepsLedgerInv(p, NEW_LEDGER, es, start);
    LedgerBoundsRate(p, Run(p, NEW_LEDGER, es), EndOf(start, es), from);
  }

  lemma {:induction false} RunConcat(p: DomainPolicy, l: Ledger, a: seq<Event>, b: seq<Event>)
    ensures Run(p, l, a + b) == Run(p, Run(p, l, a), b)
  {
    if b == [] {
      assert a + b == a;
    } else {
      assert (a + b)[..|a + b| - 1] == a + b[..|b| - 1];
      RunConcat(p, l, a, b[..|b| - 1]);
    }
  }

  function Acquires(at: Time, k: nat): seq<Event> { seq(k, _ => Event(at, TryAcquire(AT_ONCE))) }

  // Without spacing and cooldown, a burst is granted as long as the budget and the cap last.
  lemma {:induction false} Burst(p: DomainPolicy, l: Ledger, at: Time, k: nat)
    requires l.st.windowStart != None && l.st.windowStart.value <= at < l.st.windowStart.value + p.window
    requires p.minDelay == 0 && l.st.cooldownUntil == None
             && (l.st.lastRequestAt == None || l.st.lastRequestAt.value <= at)
    requires l.st.windowCount + k <= p.budgetPerWindow && l.st.inflight + k <= p.concurrencyCap
    ensures var r := Run(p, l, Acquires(at, k));
            && r.grants == l.grants + seq(k, _ => Grant(at, at, l.st.windowStart.value))
            && r.st == l.st.(inflight := l.st.inflight + k, windowCount := l.st.windowCount + k,
                             lastRequestAt := if k == 0 then l.st.lastRequestAt else Some(at))
  {
    if k > 0 {
      assert Acquires(at, k)[..k - 1] == Acquires(at, k - 1);
      Burst(p, l, at, k - 1);
    }
  }

  lemma {:induction false} RangeSize(s: set<int>, n: nat)
    requires forall i :: i in s <==> 0 <= i < n
    ensures |s| == n
  {
    if n > 0 {
      RangeSize(s - {n - 1}, n - 1);
    } else {
      assert forall i :: i !in s;
      assert s == {};
    }
  }

  // Two budgets is the best bound, for every budget: the window opened at 0 by a mere question is nearly
  // over when its grants are made, and the next window grants as many a moment later.
  lemma RateBoundIsTight(budget: nat, window: nat)
    requires window >= 2
    ensures var p := DomainPolicy(2 * budget, 0, 0, 0, budget, window);
            exists es :: InOrder(0, es) && |GrantsIn(Run(p, NEW_LEDGER, es).grants, 1, p.window)| == 2 * Budget(p)
  {
    hide Run, BurstEvents, InOrder, Apply, Acquires, GrantsIn;
    var p := DomainPolicy(2 * budget, 0, 0, 0, budget, window);
    var es := BurstEvents(budget, window);
    var grants := TwoBursts(p, budget);
    BurstEventsRun(p, budget, window);
    BurstsInOrder(budget, window);
    InsideBursts(grants, budget, window);
    assert InOrder(0, es) && |GrantsIn(Run(p, NEW_LEDGER, es).grants, 1, p.window)| == 2 * Budget(p);
  }

  lemma InsideBursts(grants: seq<Grant>, budget: nat, window: nat)
    requires |grants| == 2 * budget && forall i :: 0 <= i < 2 * budget ==> window - 1 <= grants[i].at <= window
    requires window >= 2
    ensures |GrantsIn(grants, 1, window)| == 2 * budget
  {
    RangeSize(GrantsIn(grants, 1, window), 2 * budget);
  }

  function BurstEvents(budget: nat, window: nat): seq<Event> {
    [Event(0, Peek)] + Acquires(window - 1, budget) + [Event(window, Peek)] + Acquires(window, budget)
  }

  lemma BurstEventsRun(p: DomainPolicy, budget: nat, window: nat)
    ensures Run(p, NEW_LEDGER, BurstEvents(budget, window)) ==
            Run(p, Run(p, Run(p, Run(p, NEW_LEDGER, [Event(0, Peek)]), Acquires(window - 1, budget)),
                       [Event(window, Peek)]),
                Acquires(window, budget))
  {
    hide Run, Acquires;
    var open, first := [Event(0, Peek)], Acquires(window - 1, budget);
    var reopen, second := [Event(window, Peek)], Acquires(window, budget);
    RunConcat(p, NEW_LEDGER, open + first + reopen, second);
    RunConcat(p, NEW_LEDGER, open + first, reopen);
    RunConcat(p, NEW_LEDGER, open, first);
  }

  lemma BurstsInOrder(budget: nat, window: nat)
    requires window >= 2
    ensures InOrder(0, BurstEvents(budget, window))
  {
    var es := BurstEvents(budget, window);
    forall i | 0 <= i < |es|
      ensures es[i].at == if i == 0 then 0 else if i <= budget then window - 1 else window {}
  }

  lemma RunOne(p: DomainPolicy, l: Ledger, e: Event)
    ensures Run(p, l, [e]) == Apply(p, l, e)
  {
    assert [e][..0] == [] && Run(p, l, []) == l;
  }

  lemma TwoBursts(p: DomainPolicy, budget: nat) returns (grants: seq<Grant>)
    requires p == DomainPolicy(2 * budget, 0, 0, 0, budget, p.window) && p.window >= 2
    ensures var l := Run(p, Run(p, NEW_LEDGER, [Event(0, Peek)]), Acquires(p.window - 1, budget));
            Run(p, Run(p, l, [Event(p.window, Peek)]), Acquires(p.window, budget)).grants == grants
    ensures |grants| == 2 * budget && forall i :: 0 <= i < 2 * budget ==> p.window - 1 <= grants[i].at <= p.window
  {
    hide Run, Apply, Acquires;
    RunOne(p, NEW_LEDGER, Event(0, Peek));
    var l0 := Apply(p, NEW_LEDGER, Event(0, Peek));
    PeekOpens(p, NEW_LEDGER, 0);
    Burst(p, l0, p.window - 1, budget);
    var l1 := Run(p, l0, Acquires(p.window - 1, budget));
    RunOne(p, l1, Event(p.window, Peek));
    var l2 := Apply(p, l1, Event(p.window, Peek));
    PeekOpens(p, l1, p.window);
    Burst(p, l2, p.window, budget);
    grants := Run(p, l2, Acquires(p.window, budget)).grants;
  }

  lemma PeekOpens(p: DomainPolicy, l: Ledger, at: Time)
    requires l.st.windowStart == None || l.st.windowStart.value + p.window <= at
    ensures Apply(p, l, Event(at, Peek)) == l.(st := l.st.(windowStart := Some(at), windowCount := 0))
  {
  }

  // ---------- the full delay between grants ----------

  // No acquire takes longer than this from its first reading to the one that decides it.
  ghost predicate DriftsBy(es: seq<Event>, drift: nat) {
    forall i :: 0 <= i < |es| && es[i].call.TryAcquire? ==> es[i].call.lag.ask + es[i].call.lag.look <= drift
  }

  ghost predicate FullDelay(p: DomainPolicy, grants: seq<Grant>) {
    forall i, j :: 0 <= i && j == i + 1 && j < |grants| ==> grants[i].at + p.minDelay <= grants[j].at
  }

  ghost predicate KeepsFullDelay(p: DomainPolicy, drift: nat) {
    forall start, es :: InOrder(start, es) && DriftsBy(es, drift) ==> FullDelay(p, Run(p, NEW_LEDGER, es).grants)
  }

  // A domain with no slot, or with windows but no budget for them, never grants anything.
  predicate Starved(p: DomainPolicy) { p.concurrencyCap < 1 || (p.budgetPerWindow < 1 && p.window > 0) }

  lemma StarvedNeverDecides(p: DomainPolicy, st: DomainState, asked: Time, looked: Time)
    requires Starved(p) && asked <= looked
    ensures !Decides(p, st, asked, looked)
  {
  }

  lemma {:induction false} StarvedGrantsNothing(p: DomainPolicy, es: seq<Event>)
    requires Starved(p)
    ensures Run(p, NEW_LEDGER, es).grants == []
  {
    hide Decides, Starved;
    if es != [] {
      var init, e := es[..|es| - 1], es[|es| - 1];
      StarvedGrantsNothing(p, init);
      if e.call.TryAcquire? {
        var asked := e.at + e.call.lag.ask;
        StarvedNeverDecides(p, Run(p, NEW_LEDGER, init).st, asked, asked + e.call.lag.look);
      }
    }
  }

  lemma {:induction false} GrantsDriftBy(p: DomainPolicy, es: seq<Event>, drift: nat)
    requires DriftsBy(es, drift)
    ensures forall g :: g in Run(p, NEW_LEDGER, es).grants ==> g.at <= g.stamp + drift
  {
    hide Decides, AfterLook, Refreshed, Charged;
    if es != [] {
      GrantsDriftBy(p, es[..|es| - 1], drift);
    }
  }

  // Whether some run loses part of the delay: an acquire can drift, the delay counts, and a second grant can come
  // before it is over, in the same window or in the next one.
  predicate CanLoseDelay(p: DomainPolicy, drift: nat) {
    && drift > 0 && p.minDelay > 0 && !Starved(p)
    && (p.window <= 0 || p.budgetPerWindow >= 2 || p.minDelay >= 2)
  }

  lemma FullDelayUnlessLost(p: DomainPolicy, drift: nat, start: Time, es: seq<Event>)
    requires !CanLoseDelay(p, drift) && InOrder(start, es) && DriftsBy(es, drift)
    ensures FullDelay(p, Run(p, NEW_LEDGER, es).grants)
  {
    hide Run, InOrder, DriftsBy;
    var grants := Run(p, NEW_LEDGER, es).grants;
    RunKeepsLedgerInv(p, NEW_LEDGER, es, start);
    GrantsDriftBy(p, es, drift);
    if Starved(p) {
      StarvedGrantsNothing(p, es);
    } else if drift > 0 && p.minDelay > 0 {
      assert p.window > 0 && Budget(p) == 1;
      assert Windowed(p, grants);
    } else {
      assert forall i :: 0 <= i < |grants| ==> grants[i] in grants;
      assert Spaced(p, grants);
    }
  }

  // The first acquire drifts by one between its first reading and the one that decides it, near the end of a window;
  // the second follows the minimal delay after that first reading.
  lemma LostDelay(p: DomainPolicy, drift: nat)
    requires CanLoseDelay(p, drift)
    ensures !KeepsFullDelay(p, drift)
  {
    hide Run, Apply;
    var start := Min(0, 2 - p.window);
    var e0, e1 := Event(start, Peek), Event(0, TryAcquire(Lag(1, 0, 0)));
    var e2, e3 := Event(1, Release(true)), Event(p.minDelay, TryAcquire(AT_ONCE));
    var es := [e0, e1, e2, e3];
    RunFour(p, NEW_LEDGER, e0, e1, e2, e3);
    TwoGrants(p, e0, e1, e2, e3);
    var grants := Run(p, NEW_LEDGER, es).grants;
    assert grants[0].at + p.minDelay > grants[1].at;
    assert InOrder(start, es) && DriftsBy(es, drift);
    assert !FullDelay(p, grants);
  }

  lemma RunFour(p: DomainPolicy, l: Ledger, e0: Event, e1: Event, e2: Event, e3: Event)
    ensures Run(p, l, [e0, e1, e2, e3]) == Apply(p, Apply(p, Apply(p, Apply(p, l, e0), e1), e2), e3)
  {
    hide Apply;
    RunOne(p, l, e0);
    RunConcat(p, l, [e0], [e1]);
    RunConcat(p, l, [e0, e1], [e2]);
    RunConcat(p, l, [e0, e1, e2], [e3]);
    RunOne(p, Run(p, l, [e0]), e1);
    RunOne(p, Run(p, l, [e0, e1]), e2);
    RunOne(p, Run(p, l, [e0, e1, e2]), e3);
    assert [e0] + [e1] == [e0, e1] && [e0, e1] + [e2] == [e0, e1, e2] && [e0, e1, e2] + [e3] == [e0, e1, e2, e3];
  }

  lemma TwoGrants(p: DomainPolicy, e0: Event, e1: Event, e2: Event, e3: Event)
    requires p.minDelay > 0 && !Starved(p) && (p.window <= 0 || p.budgetPerWindow >= 2 || p.minDelay >= 2)
    requires e0 == Event(Min(0, 2 - p.window), Peek) && e1 == Event(0, TryAcquire(Lag(1, 0, 0)))
    requires e2 == Event(1, Release(true)) && e3 == Event(p.minDelay, TryAcquire(AT_ONCE))
    ensures var grants := Apply(p, Apply(p, Apply(p, Apply(p, NEW_LEDGER, e0), e1), e2), e3).grants;
            |grants| == 2 && grants[0].at == 1 && grants[1].at == p.minDelay
  {
    var l0 := Apply(p, NEW_LEDGER, e0);
    assert l0.st == INITIAL_STATE.(windowStart := Some(e0.at)) && l0.grants == [];
    var l1 := Apply(p, l0, e1);
    DecidesIff(p, l0.st, 1, 1);
    assert Grants(p, l0.st, 1);
    assert |l1.grants| == 1 && l1.grants[0].at == 1 && l1.st.inflight == 1 && l1.st.lastRequestAt == Some(0);
    var l2 := Apply(p, l1, e2);
    assert l2.st.inflight == 0 && l2.st.cooldownUntil == None && l2.grants == l1.grants;
    assert Grants(p, l2.st, p.minDelay);
    AcquireAtOnce(p, l2, p.minDelay);
  }

  // For acquires that drift by at most this much, every run keeps the full delay between deciding readings exactly when
  // no acquire drifts, there is no delay to keep, or the budget keeps grants apart anyway.
  lemma FullDelayIff(p: DomainPolicy, drift: nat)
    ensures KeepsFullDelay(p, drift) <==> !CanLoseDelay(p, drift)
  {
    hide InOrder, DriftsBy, FullDelay, CanLoseDelay;
    if CanLoseDelay(p, drift) {
      LostDelay(p, drift);
    } else {
      forall start, es | InOrder(start, es) && DriftsBy(es, drift) ensures FullDelay(p, Run(p, NEW_LEDGER, es).grants) {
        FullDelayUnlessLost(p, drift, start, es);
      }
    }
  }

  // ---------- backoff ----------

  lemma DelayDoublesUpToMax(p: DomainPolicy, k: nat)
    requires k > 0 && p.maxBackoff >= 0
    ensures Delay(p, k + 1) == Min(2 * Delay(p, k), p.maxBackoff)
  {
    assert p.errorBackoff * (2 * Pow2(k - 1)) == 2 * (p.errorBackoff * Pow2(k - 1));
  }

  lemma DelayGrows(p: DomainPolicy, k: nat)
    requires k > 0 && p.errorBackoff >= 0
    ensures Delay(p, k) <= Delay(p, k + 1)
  {
    assert p.errorBackoff * (2 * Pow2(k - 1)) == 2 * (p.errorBackoff * Pow2(k - 1));
    assert p.errorBackoff * Pow2(k - 1) >= 0;
  }

  predicate Succeeds(e: Event) { e.call == Release(true) }

  function Errors(es: seq<Event>): nat {
    if es == [] then 0
    else Errors(es[..|es| - 1]) + if es[|es| - 1].call.RegisterError? then 1 else 0
  }

  function LastErrorAt(es: seq<Event>): Time
    requires Errors(es) > 0
  {
    if es[|es| - 1].call.RegisterError? then es[|es| - 1].at else LastErrorAt(es[..|es| - 1])
  }

  // Only errors and successes touch the streak.
  lemma CallStreak(p: DomainPolicy, l: Ledger, e: Event)
    ensures var r, k := Apply(p, l, e).st, l.st.errorCount + 1;
            if Succeeds(e) then r.errorCount == 0 && r.cooldownUntil == None
            else if e.call.RegisterError? then r.errorCount == k && r.cooldownUntil == Some(e.at + Delay(p, k))
            else r.errorCount == l.st.errorCount && r.cooldownUntil == l.st.cooldownUntil
  {
    hide Decides, Delay;
  }

  // A grant never comes before the cooldown.
  lemma CallGrants(p: DomainPolicy, l: Ledger, e: Event)
    ensures var r := Apply(p, l, e).grants;
            || r == l.grants
            || exists g :: r == l.grants + [g] && e.at <= g.at <= EndAt(e)
                           && (l.st.cooldownUntil.Some? ==> l.st.cooldownUntil.value <= g.at)
  {
    if e.call.TryAcquire? {
      var asked, looked := e.at + e.call.lag.ask, e.at + e.call.lag.ask + e.call.lag.look;
      DecidesIff(p, l.st, asked, looked);
      if Decides(p, l.st, asked, looked) {
        var g := Grant(looked, e.at, Refreshed(p, AfterLook(p, l.st, looked), e.at).windowStart.value);
        assert Apply(p, l, e).grants == l.grants + [g];
      }
    }
  }

  // Between two successes the cooldown depends only on how many errors there were and when the last one was.
  lemma {:induction false} BackoffLaw(p: DomainPolicy, l: Ledger, es: seq<Event>)
    requires l.st.errorCount == 0 && l.st.cooldownUntil == None
    requires forall i :: 0 <= i < |es| ==> !Succeeds(es[i])
    ensures var r := Run(p, l, es).st;
            r.errorCount == Errors(es) &&
            r.cooldownUntil == if Errors(es) == 0 then None else Some(LastErrorAt(es) + Delay(p, Errors(es)))
  {
    if es != [] {
      var init := es[..|es| - 1];
      BackoffLaw(p, l, init);
      CallStreak(p, Run(p, l, init), es[|es| - 1]);
      hide Apply, Delay;
    }
  }

  // So within a streak the k-th error is waited for as long as the base doubled k - 1 times, up to the maximum.
  lemma StreakBackoff(p: DomainPolicy, l: Ledger, es: seq<Event>)
    requires l.st.errorCount == 0 && l.st.cooldownUntil == None && Errors(es) > 0
    requires forall i :: 0 <= i < |es| ==> !Succeeds(es[i])
    ensures var r := Run(p, l, es).st;
            && r.errorCount == Errors(es) && r.cooldownUntil.Some?
            && IsBackoff(p, Errors(es), r.cooldownUntil.value - LastErrorAt(es))
  {
    hide Delay, Run;
    BackoffLaw(p, l, es);
    DelayIsBackoff(p, Errors(es));
  }

  // Holds after every event of a run that starts from a new ledger.
  ghost predicate StreakInv(p: DomainPolicy, st: DomainState, now: Time) {
    st.cooldownUntil != None ==> st.errorCount > 0 && st.cooldownUntil.value <= now + Delay(p, st.errorCount)
  }

  // While no success intervenes, the cooldown only moves forward and nothing is granted before it.
  lemma {:induction false} CooldownHolds(p: DomainPolicy, l: Ledger, es: seq<Event>, start: Time)
    requires p.errorBackoff >= 0 && StreakInv(p, l.st, start) && InOrder(start, es)
    requires l.st.cooldownUntil != None
    requires forall i :: 0 <= i < |es| ==> !Succeeds(es[i])
    ensures var r := Run(p, l, es);
            && StreakInv(p, r.st, EndOf(start, es))
            && r.st.cooldownUntil != None && l.st.cooldownUntil.value <= r.st.cooldownUntil.value
            && l.grants <= r.grants
            && (forall i :: |l.grants| <= i < |r.grants| ==> l.st.cooldownUntil.value <= r.grants[i].at)
  {
    if es != [] {
      var init, e := es[..|es| - 1], es[|es| - 1];
      CooldownHolds(p, l, init, start);
      CallStreak(p, Run(p, l, init), e);
      CallGrants(p, Run(p, l, init), e);
      hide Apply, Delay;
      if e.call.RegisterError? { DelayGrows(p, Run(p, l, init).st.errorCount); }
    }
  }

  lemma {:induction false} RunKeepsStreakInv(p: DomainPolicy, es: seq<Event>, start: Time)
    requires InOrder(start, es)
    ensures StreakInv(p, Run(p, NEW_LEDGER, es).st, EndOf(start, es))
  {
    if es != [] {
      var init := es[..|es| - 1];
      RunKeepsStreakInv(p, init, start);
      CallStreak(p, Run(p, NEW_LEDGER, init), es[|es| - 1]);
      hide Apply, Delay;
    }
  }
}
