// What the logs say about each task, in every reachable state, and the main results about runs.
module TaskAccounts {
  import opened Prelude
  import opened Sorting
  import opened PolicyGate
  import opened RateLimiter
  import opened TaskQueue
  import opened Acquisition
  import opened TaskRuns

  // ---------- the logs of one task ----------

  function TransitionsOf(log: seq<Transition>, id: Id): seq<Transition> {
    if log == [] then []
    else TransitionsOf(log[..|log| - 1], id) + if log[|log| - 1].taskId == id then [log[|log| - 1]] else []
  }

  // The records of finished attempts; denials are logged too, but are not attempts.
  function AttemptsOf(log: seq<AuditRecord>, id: Id): seq<AuditRecord> {
    if log == [] then []
    else
      var last := log[|log| - 1];
      AttemptsOf(log[..|log| - 1], id) + if last.taskId == id && last.outcome != LogDenied then [last] else []
  }

  function RunCount(log: seq<Transition>): nat {
    if log == [] then 0 else RunCount(log[..|log| - 1]) + Bit(log[|log| - 1].to == Running)
  }

  predicate Legal(from: TaskStatus, to: TaskStatus) {
    match from
    case Queued => to == Running || to == Queued || to == Denied
    case Running => to == Queued || to == Succeeded || to == Failed
    case _ => false
  }

  // A chain of legal transitions from queued to the given status; a task denied on submission has none.
  ghost predicate LifePath(log: seq<Transition>, to: TaskStatus) {
    if log == [] then to == Queued || to == Denied
    else
      && log[0].from == Queued && log[|log| - 1].to == to
      && (forall i :: 0 <= i < |log| ==> Legal(log[i].from, log[i].to))
      && (forall i :: 0 <= i < |log| - 1 ==> log[i].to == log[i + 1].from)
  }

  // attempts are numbered 1, 2, ...; only the last can be a success, and it is one exactly for a succeeded task.
  ghost predicate Accounted(t: Task, transitions: seq<Transition>, attempts: seq<AuditRecord>) {
    && LifePath(transitions, t.status)
    && RunCount(transitions) == t.attempt <= t.maxAttempts
    && (t.status == Queued ==> t.attempt < t.maxAttempts)
    && |attempts| == t.attempt - Bit(t.status == Running)
    && (forall i :: 0 <= i < |attempts| ==> attempts[i].attempt == i + 1)
    && (forall i :: 0 <= i < |attempts| ==>
          (attempts[i].outcome == LogSucceeded <==> i == |attempts| - 1 && t.status == Succeeded))
    && (t.status == Succeeded || t.status == Failed ==> |attempts| > 0)
  }

  ghost predicate AccountOf(w: World, id: Id) {
    if id in w.tasks
    then Accounted(w.tasks[id], TransitionsOf(w.transitions, id), AttemptsOf(w.audit, id))
    else TransitionsOf(w.transitions, id) == [] && AttemptsOf(w.audit, id) == []
  }

  ghost predicate AllAccounted(w: World) {
    forall id :: AccountOf(w, id)
  }

  lemma TransitionsAppend(log: seq<Transition>, x: Transition, id: Id)
    ensures TransitionsOf(log + [x], id) == TransitionsOf(log, id) + if x.taskId == id then [x] else []
  {
    assert (log + [x])[..|log|] == log;
  }

  lemma AttemptsAppend(log: seq<AuditRecord>, x: AuditRecord, id: Id)
    ensures AttemptsOf(log + [x], id) ==
            AttemptsOf(log, id) + if x.taskId == id && x.outcome != LogDenied then [x] else []
  {
    assert (log + [x])[..|log|] == log;
  }

  lemma RunCountAppend(log: seq<Transition>, x: Transition)
    ensures RunCount(log + [x]) == RunCount(log) + Bit(x.to == Running)
  {
    assert (log + [x])[..|log|] == log;
  }

  // A step stores one task and appends at most one transition and one record, both its own.
  ghost predicate OneTask(w: World, w': World, id: Id, moved: seq<Transition>, logged: seq<AuditRecord>) {
    && id in w'.tasks && w'.tasks == w.tasks[id := w'.tasks[id]]
    && w'.transitions == w.transitions + moved && |moved| <= 1
    && w'.audit == w.audit + logged && |logged| <= 1
    && (forall x :: x in moved ==> x.taskId == id)
    && (forall x :: x in logged ==> x.taskId == id)
  }

  ghost function Counting(logged: seq<AuditRecord>): seq<AuditRecord> {
    if logged != [] && logged[0].outcome != LogDenied then logged else []
  }

  lemma OneTaskLogs(w: World, w': World, id: Id, moved: seq<Transition>, logged: seq<AuditRecord>, id2: Id)
    requires OneTask(w, w', id, moved, logged)
    ensures TransitionsOf(w'.transitions, id2) == TransitionsOf(w.transitions, id2) + if id2 == id then moved else []
    ensures AttemptsOf(w'.audit, id2) == AttemptsOf(w.audit, id2) + if id2 == id then Counting(logged) else []
  {
    if moved == [] { assert w'.transitions == w.transitions; }
    else {
      assert moved == [moved[0]] && moved[0] in moved;
      TransitionsAppend(w.transitions, moved[0], id2);
    }
    if logged == [] { assert w'.audit == w.audit; }
    else {
      assert logged == [logged[0]] && logged[0] in logged;
      AttemptsAppend(w.audit, logged[0], id2);
    }
  }

  lemma OtherAccountKept(w: World, w': World, id: Id, moved: seq<Transition>, logged: seq<AuditRecord>, id2: Id)
    requires AccountOf(w, id2) && OneTask(w, w', id, moved, logged) && id2 != id
    ensures AccountOf(w', id2)
  {
    OneTaskLogs(w, w', id, moved, logged, id2);
    assert id2 in w'.tasks <==> id2 in w.tasks;
    assert id2 in w.tasks ==> w'.tasks[id2] == w.tasks[id2];
    assert TransitionsOf(w'.transitions, id2) == TransitionsOf(w.transitions, id2);
    assert AttemptsOf(w'.audit, id2) == AttemptsOf(w.audit, id2);
  }

  lemma OneTaskKeepsAccounts(w: World, w': World, id: Id, moved: seq<Transition>, logged: seq<AuditRecord>)
    requires AllAccounted(w) && OneTask(w, w', id, moved, logged)
    requires Accounted(w'.tasks[id], TransitionsOf(w.transitions, id) + moved,
                       AttemptsOf(w.audit, id) + Counting(logged))
    ensures AllAccounted(w')
  {
    forall id2 ensures AccountOf(w', id2) {
      assert AccountOf(w, id2);
      if id2 == id {
        OneTaskLogs(w, w', id, moved, logged, id);
      } else {
        OtherAccountKept(w, w', id, moved, logged, id2);
      }
    }
  }

  lemma SubmitKeepsAccounts(w: World, id: Id, t: Task)
    requires AllAccounted(w) && id !in w.tasks && t.attempt == 0 && t.maxAttempts >= 1
    ensures AllAccounted(Submit(w, id, t))
  {
    assert AccountOf(w, id);
    var w' := Submit(w, id, t);
    var logged := if Accepts(w, t) then []
                  else [AuditRecord(id, LogDenied, Some(if t.wellFormed then "PolicyDenied" else "QueuePayloadError"),
                                    0)];
    assert OneTask(w, w', id, [], logged);
    assert AttemptsOf(w.audit, id) + Counting(logged) == [];
    OneTaskKeepsAccounts(w, w', id, [], logged);
  }

  // A legal transition away from a task's status, with the attempt it starts or ends.
  lemma MoveKeepsAccounted(t: Task, log: seq<Transition>, attempts: seq<AuditRecord>, x: Transition, t': Task,
                           ended: seq<AuditRecord>)
    requires Accounted(t, log, attempts) && x.from == t.status && x.to == t'.status && Legal(x.from, x.to)
    requires t'.attempt == t.attempt + Bit(t'.status == Running) && t'.maxAttempts == t.maxAttempts
    requires t.status == Running && t'.status == Queued ==> t'.attempt < t'.maxAttempts
    requires if t.status == Running then
               |ended| == 1 && ended[0].attempt == t.attempt
                 && (ended[0].outcome == LogSucceeded <==> t'.status == Succeeded)
             else ended == []
    ensures Accounted(t', log + [x], attempts + ended)
  {
    assert LifePath(log + [x], t'.status);
    RunCountAppend(log, x);
  }

  // What a start, a deferral or a denial writes.
  ghost predicate BeginRecords(w: World, w': World, id: Id)
    requires id in w.tasks
  {
    && id in w'.tasks && w'.tasks == w.tasks[id := w'.tasks[id]]
    && w'.transitions == w.transitions + [Transition(id, Queued, w'.tasks[id].status, w'.clock)]
    && w'.audit == w.audit + Denials(w, id)
    && Legal(Queued, w'.tasks[id].status)
    && w'.tasks[id].attempt == w.tasks[id].attempt + Bit(w'.tasks[id].status == Running)
    && w'.tasks[id].maxAttempts == w.tasks[id].maxAttempts
  }

  ghost function Denials(w: World, id: Id): seq<AuditRecord>
    requires id in w.tasks
  {
    if MayRun(w, id) then [] else [AuditRecord(id, LogDenied, Some("PolicyDenied"), w.tasks[id].attempt)]
  }

  lemma BeginWrites(w: World, id: Id, lag: Lag)
    requires id in w.tasks && w.tasks[id].status == Queued
    ensures BeginRecords(w, Begin(w, id, lag), id)
  {
    if !MayRun(w, id) {
    } else if Starts(w, id, lag) {
    } else {
    }
  }

  lemma BeginAccounts(w: World, w': World, id: Id)
    requires AllAccounted(w) && id in w.tasks && w.tasks[id].status == Queued && BeginRecords(w, w', id)
    ensures AllAccounted(w')
  {
    assert AccountOf(w, id);
    var x := Transition(id, Queued, w'.tasks[id].status, w'.clock);
    MoveKeepsAccounted(w.tasks[id], TransitionsOf(w.transitions, id), AttemptsOf(w.audit, id), x, w'.tasks[id], []);
    assert Counting(Denials(w, id)) == [];
    OneTaskKeepsAccounts(w, w', id, [x], Denials(w, id));
  }

  lemma BeginKeepsAccounts(w: World, id: Id, lag: Lag)
    requires AllAccounted(w) && id in w.tasks && w.tasks[id].status == Queued
    ensures AllAccounted(Begin(w, id, lag))
  {
    BeginWrites(w, id, lag);
    BeginAccounts(w, Begin(w, id, lag), id);
  }

  lemma FinishKeepsAccounts(w: World, id: Id, outcome: Outcome)
    requires AllAccounted(w) && id in w.tasks && w.tasks[id].status == Running
    ensures AllAccounted(Finish(w, id, outcome))
  {
    assert AccountOf(w, id);
    var w', eff := Finish(w, id, outcome), Effective(w.tasks[id], outcome);
    var x := Transition(id, Running, w'.tasks[id].status, w.clock);
    var logged := [AuditRecord(id, if eff == Completed then LogSucceeded else LogFailed, ErrorClass(eff),
                               w.tasks[id].attempt)];
    assert OneTask(w, w', id, [x], logged);
    MoveKeepsAccounted(w.tasks[id], TransitionsOf(w.transitions, id), AttemptsOf(w.audit, id), x, w'.tasks[id], logged);
    OneTaskKeepsAccounts(w, w', id, [x], logged);
  }

  lemma SameAccounts(w: World, w': World)
    requires AllAccounted(w) && w'.tasks == w.tasks && w'.transitions == w.transitions && w'.audit == w.audit
    ensures AllAccounted(w')
  {
    forall id ensures AccountOf(w', id) { assert AccountOf(w, id); }
  }

  // ---------- compliance ----------

  // Every handler call found the source open to crawling. Whatever entered the queue was allowed at
  // that moment, except for retries, which are not checked again.
  ghost predicate Compliant(w: World) {
    && (forall c :: c in w.calls ==> c.taskType in FIRECRAWL_TASKS && c.status == CrawlAllowed)
    && (forall e :: e in w.entries && !e.kind.Retried? ==> e.taskType in AllowedOperations(e.status))
  }

  lemma NextKeepsCompliant(w: World, e: Step)
    requires Compliant(w) && Enabled(w, e)
    ensures Compliant(Next(w, e))
  {
    if e.BeginTask? && w.hand[e.index].taskId in w.tasks {
      var t := w.tasks[w.hand[e.index].taskId];
      AllowedExactly(w.policies, t.source, t.taskType);
    }
  }

  // Undisturbed processing also checks its retries: no policy changes while one call of process_task runs.
  lemma UndisturbedRetriesAreAllowed(w: World, id: Id, lag: Lag, later: Time, outcome: Outcome)
    ensures var w' := Process(w, id, lag, later, outcome);
            || w'.entries == w.entries
            || exists e :: w'.entries == w.entries + [e] && e.taskType in AllowedOperations(e.status)
  {
    hide Apply, NextAvailable, AllowedOperations;
    if id in w.tasks && MayRun(w, id) {
      var t := w.tasks[id];
      var e := Entry(id, t.taskType, StatusOf(w.policies, t.source), Retried);
      if Starts(w, id, lag) {
        var started := Start(w, id, lag).(clock := later);
        assert started.entries == w.entries && started.policies == w.policies;
        assert Finish(started, id, outcome).entries ==
               if Retries(started.tasks[id], outcome) then w.entries + [e] else w.entries;
      } else {
        assert Begin(w, id, lag).entries == w.entries + [e.(kind := Deferred)];
      }
    }
  }

  // ---------- runs ----------

  ghost predicate Inv(w: World) {
    && Placed(w) && Ledgered(w) && Counted(w) && AllAccounted(w) && Compliant(w)
  }

  lemma InitialInv(clock: Time, rates: map<Domain, DomainPolicy>)
    ensures Inv(Initial(clock, rates))
  {
    var w := Initial(clock, rates);
    forall d ensures RunningIn(w.tasks, d) == {} {}
    assert Placed(w);
    assert Ledgered(w);
    assert Counted(w);
    assert Compliant(w);
    forall id ensures AccountOf(w, id) {}
  }

  lemma {:induction false} NextKeepsInv(w: World, e: Step)
    requires Inv(w) && Enabled(w, e)
    ensures Inv(Next(w, e))
  {
    NextKeepsCompliant(w, e);
    match e
    case SubmitTask(id, t) =>
      SubmitKeepsPlaced(w, id, t); SubmitKeepsLedgered(w, id, t);
      SubmitKeepsCounted(w, id, t); SubmitKeepsAccounts(w, id, t);
    case BeginTask(i, lag) =>
      var left, id := TakeFromHand(w, i), w.hand[i].taskId;
      TakeFromPlaced(w, i);
      SameLedgers(w, left);
      SameCountsEverywhere(w, left);
      SameAccounts(w, left);
      BeginPlaces(left, id, lag); BeginKeepsLedgered(left, id, lag); BeginKeepsCounted(left, id, lag);
      BeginKeepsAccounts(left, id, lag);
    case FinishTask(id, o) =>
      FinishKeepsPlaced(w, id, o); FinishKeepsLedgered(w, id, o);
      FinishKeepsCounted(w, id, o); FinishKeepsAccounts(w, id, o);
    case PopDue =>
      PopKeepsPlaced(w); SameLedgers(w, Pop(w)); SameCountsEverywhere(w, Pop(w)); SameAccounts(w, Pop(w));
    case _ =>
      SameLedgers(w, Next(w, e)); SameCountsEverywhere(w, Next(w, e)); SameAccounts(w, Next(w, e));
  }

  lemma SameCountsEverywhere(w: World, w': World)
    requires Counted(w) && w'.ledgers == w.ledgers && w'.rates == w.rates && w'.tasks == w.tasks
    ensures Counted(w')
  {
    forall d ensures LedgerOf(w', d).st.inflight == |RunningIn(w'.tasks, d)| <= Max(0, RateOf(w', d).concurrencyCap) {
      SameCounts(w, w', d);
    }
  }

  lemma {:induction false} RunKeepsInv(w: World, es: seq<Step>)
    requires Inv(w) && IsRun(w, es)
    ensures Inv(TaskRuns.Run(w, es))
    decreases |es|
  {
    if es != [] {
      NextKeepsInv(w, es[0]);
      RunKeepsInv(Next(w, es[0]), es[1..]);
    }
  }

  // ---------- main results ----------

  ghost predicate Reaches(w: World, es: seq<Step>, clock: Time, rates: map<Domain, DomainPolicy>) {
    IsRun(Initial(clock, rates), es) && w == TaskRuns.Run(Initial(clock, rates), es)
  }

  lemma ReachableInv(w: World, es: seq<Step>, clock: Time, rates: map<Domain, DomainPolicy>)
    requires Reaches(w, es, clock, rates)
    ensures Inv(w)
  {
    InitialInv(clock, rates);
    RunKeepsInv(Initial(clock, rates), es);
  }

  // No task is lost or duplicated: the queue and the hand hold a task once while it is queued and never
  // otherwise, so a task is in one of queue, hand, running and terminal; running tasks fill their domain's slots.
  lemma NothingLostOrDuplicated(w: World, es: seq<Step>, clock: Time, rates: map<Domain, DomainPolicy>)
    requires Reaches(w, es, clock, rates)
    ensures forall id :: (Ids(w.queue) + Ids(w.hand))[id] == Bit(id in w.tasks && w.tasks[id].status == Queued)
    ensures forall i, j :: 0 <= i < j < |w.queue| ==> w.queue[i].taskId != w.queue[j].taskId
    ensures forall d {:trigger LedgerOf(w, d)} ::
              LedgerOf(w, d).st.inflight == |RunningIn(w.tasks, d)| <= Max(0, RateOf(w, d).concurrencyCap)
  {
    ReachableInv(w, es, clock, rates);
    forall i, j | 0 <= i < j < |w.queue| ensures w.queue[i].taskId != w.queue[j].taskId {
      IdsRemove(w.queue, j);
      IdsContain(w.queue[..j] + w.queue[j + 1..], i);
      var id := w.queue[j].taskId;
      assert (Ids(w.queue) + Ids(w.hand))[id] <= 1;
    }
  }

  // The rate bound of the limiter holds in every run of the whole system.
  lemma RateBoundOverRuns(w: World, es: seq<Step>, clock: Time, rates: map<Domain, DomainPolicy>, d: Domain, from: Time)
    requires Reaches(w, es, clock, rates)
    ensures |GrantsIn(LedgerOf(w, d).grants, from, RateOf(w, d).window)| <= 2 * Budget(RateOf(w, d))
    ensures Spaced(RateOf(w, d), LedgerOf(w, d).grants)
  {
    ReachableInv(w, es, clock, rates);
    LedgerBoundsRate(RateOf(w, d), LedgerOf(w, d), w.clock, from);
  }

  lemma AttemptsAreAccounted(w: World, es: seq<Step>, clock: Time, rates: map<Domain, DomainPolicy>, id: Id)
    requires Reaches(w, es, clock, rates) && id in w.tasks
    ensures Accounted(w.tasks[id], TransitionsOf(w.transitions, id), AttemptsOf(w.audit, id))
  {
    ReachableInv(w, es, clock, rates);
    assert AccountOf(w, id);
  }

  lemma CompliantRuns(w: World, es: seq<Step>, clock: Time, rates: map<Domain, DomainPolicy>)
    requires Reaches(w, es, clock, rates)
    ensures Compliant(w)
  {
    ReachableInv(w, es, clock, rates);
  }

  // ---------- when queue entries are allowed ----------

  predicate EntryAllowed(e: Entry) { e.taskType in AllowedOperations(e.status) }

  ghost predicate AllAllowed(entries: seq<Entry>) {
    forall e :: e in entries ==> EntryAllowed(e)
  }

  // Finishing a task can only queue what is allowed, whatever the handler does, exactly when the task never reaches the
  // handler, has no attempt left, or belongs to a source that may be crawled.
  lemma RetryAllowedIff(w: World, id: Id)
    requires id in w.tasks && w.tasks[id].status == Running
    ensures var t := w.tasks[id];
            (forall outcome :: AllAllowed(Finish(w, id, outcome).entries[|w.entries|..])) <==>
            t.taskType !in FIRECRAWL_TASKS || t.attempt >= t.maxAttempts
            || StatusOf(w.policies, t.source) == CrawlAllowed
  {
    var t := w.tasks[id];
    forall outcome ensures AllAllowed(Finish(w, id, outcome).entries[|w.entries|..]) <==>
                           (!Retries(t, outcome) || StatusOf(w.policies, t.source) == CrawlAllowed) {
      FinishEntries(w, id, outcome);
    }
    assert Retries(t, NetworkDown) <==> t.taskType in FIRECRAWL_TASKS && t.attempt < t.maxAttempts;
  }

  // What a finish adds: one entry for a retry, nothing otherwise; only Firecrawl tasks are retried.
  lemma FinishEntries(w: World, id: Id, outcome: Outcome)
    requires id in w.tasks
    ensures var t := w.tasks[id];
            var e := EntryFor(w, id, t, Retried);
            && Finish(w, id, outcome).entries == w.entries + (if Retries(t, outcome) then [e] else [])
            && (Retries(t, outcome) ==> (EntryAllowed(e) <==> StatusOf(w.policies, t.source) == CrawlAllowed))
            && (AllAllowed(Finish(w, id, outcome).entries[|w.entries|..]) <==>
                !Retries(t, outcome) || StatusOf(w.policies, t.source) == CrawlAllowed)
  {
    var t, e := w.tasks[id], EntryFor(w, id, w.tasks[id], Retried);
    var added := if Retries(t, outcome) then [e] else [];
    assert Finish(w, id, outcome).entries == w.entries + added;
    assert (w.entries + added)[|w.entries|..] == added;
    if Retries(t, outcome) { assert e in added; }
  }

  // The step that queues a forbidden task: a retry while the source may not be crawled.
  predicate RetriesForbidden(w: World, e: Step)
    requires Enabled(w, e)
  {
    e.FinishTask? && Retries(w.tasks[e.id], e.outcome) && StatusOf(w.policies, w.tasks[e.id].source) != CrawlAllowed
  }

  ghost predicate NoForbiddenRetry(w: World, es: seq<Step>)
    requires IsRun(w, es)
    decreases |es|
  {
    es == [] || (!RetriesForbidden(w, es[0]) && NoForbiddenRetry(Next(w, es[0]), es[1..]))
  }

  lemma NextEntries(w: World, e: Step)
    requires Enabled(w, e)
    ensures AllAllowed(Next(w, e).entries) <==> AllAllowed(w.entries) && !RetriesForbidden(w, e)
  {
    if e.FinishTask? {
      FinishEntries(w, e.id, e.outcome);
      var t := w.tasks[e.id];
      EntriesAdded(w.entries, Next(w, e).entries, EntryFor(w, e.id, t, Retried));
    } else if Next(w, e).entries != w.entries {
      var added := Next(w, e).entries[|w.entries|];
      assert Next(w, e).entries == w.entries + [added] && EntryAllowed(added);
      EntriesAdded(w.entries, Next(w, e).entries, added);
    }
  }

  lemma EntriesAdded(entries: seq<Entry>, more: seq<Entry>, e: Entry)
    requires more == entries || more == entries + [e]
    ensures more == entries + [e] ==> (AllAllowed(more) <==> AllAllowed(entries) && EntryAllowed(e))
    ensures more == entries ==> (AllAllowed(more) <==> AllAllowed(entries))
  {
    if more == entries + [e] {
      assert e in more && forall x :: x in entries ==> x in more;
    }
  }

  lemma {:induction false} RunEntries(w: World, es: seq<Step>)
    requires IsRun(w, es)
    ensures AllAllowed(TaskRuns.Run(w, es).entries) <==> AllAllowed(w.entries) && NoForbiddenRetry(w, es)
    decreases |es|
  {
    if es != [] {
      NextEntries(w, es[0]);
      RunEntries(Next(w, es[0]), es[1..]);
    }
  }

  // Over a whole run, everything that entered the queue was allowed at that moment exactly when no task was retried
  // while its source could not be crawled.
  lemma EntriesAllowedIff(w: World, es: seq<Step>, clock: Time, rates: map<Domain, DomainPolicy>)
    requires Reaches(w, es, clock, rates)
    ensures AllAllowed(w.entries) <==> NoForbiddenRetry(Initial(clock, rates), es)
  {
    RunEntries(Initial(clock, rates), es);
  }

  lemma {:induction false} RunAppend(w: World, es: seq<Step>, e: Step)
    requires IsRun(w, es) && Enabled(TaskRuns.Run(w, es), e)
    ensures IsRun(w, es + [e]) && TaskRuns.Run(w, es + [e]) == Next(TaskRuns.Run(w, es), e)
    decreases |es|
  {
    if es == [] {
      assert es + [e] == [e] && [e][1..] == [];
      assert IsRun(Next(w, e), []);
    } else {
      RunAppend(Next(w, es[0]), es[1..], e);
      assert (es + [e])[1..] == es[1..] + [e];
    }
  }

  lemma SubmittedAlone(t: Task) returns (w: World, es: seq<Step>)
    requires t == Task(CrawlTask, "s", "d", true, Queued, 0, 3, 0)
    ensures Reaches(w, es, 0, map[]) && w.clock == 0 && w.tasks == map[0 := t] && w.hand == [QueueItem(0, 0)]
            && w.queue == []
    ensures w.policies == map["s" := SourcePolicy("p", CrawlAllowed)] && w.rates == map[]
    ensures LedgerOf(w, "d") == Apply(DEFAULT_POLICY, NEW_LEDGER, Event(0, Peek))
  {
    var w0 := Initial(0, map[]);
    var e1, e2 := SetPolicy("s", SourcePolicy("p", CrawlAllowed)), SubmitTask(0, t);
    var w1 := Next(w0, e1);
    var w2 := Next(w1, e2);
    assert w2.queue == [QueueItem(0, 0)] && w2.queue[..0] == [];
    assert Due(w2.queue, 0) == Due(w2.queue[..0], 0) + [w2.queue[0]];
    assert Later(w2.queue, 0) == Later(w2.queue[..0], 0);
    w := Next(w2, PopDue);
    RunAppend(w0, [], e1);
    RunAppend(w0, [] + [e1], e2);
    RunAppend(w0, [] + [e1] + [e2], PopDue);
    es := [] + [e1] + [e2] + [PopDue];
  }

  // A forbidden retry is reachable: the policy is withdrawn while the handler runs.
  lemma RetryAfterWithdrawal()
    ensures exists w, es, e :: Reaches(w, es, 0, map[]) && e in w.entries && e.kind == Retried && !EntryAllowed(e)
  {
    hide Next, Enabled, IsRun, TaskRuns.Run, EntryAllowed;
    var w3, es := SubmittedAlone(Task(CrawlTask, "s", "d", true, Queued, 0, 3, 0));
    var e4, e5, e6 := BeginTask(0, AT_ONCE), SetPolicy("s", SourcePolicy("p", Unknown)), FinishTask(0, NetworkDown);
    var w4, w5, w6 := WithdrawnWhileRunning(w3);
    RunAppend(Initial(0, map[]), es, e4);
    RunAppend(Initial(0, map[]), es + [e4], e5);
    RunAppend(Initial(0, map[]), es + [e4] + [e5], e6);
    assert Reaches(w6, es + [e4] + [e5] + [e6], 0, map[]);
    var e := EntryFor(w5, 0, w5.tasks[0], Retried);
    assert e in w6.entries && !EntryAllowed(e);
  }

  lemma WithdrawnWhileRunning(w3: World) returns (w4: World, w5: World, w6: World)
    requires w3.clock == 0 && w3.tasks == map[0 := Task(CrawlTask, "s", "d", true, Queued, 0, 3, 0)]
    requires w3.hand == [QueueItem(0, 0)] && w3.policies == map["s" := SourcePolicy("p", CrawlAllowed)]
             && w3.rates == map[]
    requires LedgerOf(w3, "d") == Apply(DEFAULT_POLICY, NEW_LEDGER, Event(0, Peek))
    ensures Enabled(w3, BeginTask(0, AT_ONCE)) && w4 == Next(w3, BeginTask(0, AT_ONCE))
    ensures var e := SetPolicy("s", SourcePolicy("p", Unknown)); Enabled(w4, e) && w5 == Next(w4, e)
    ensures Enabled(w5, FinishTask(0, NetworkDown)) && w6 == Next(w5, FinishTask(0, NetworkDown))
    ensures 0 in w5.tasks && EntryFor(w5, 0, w5.tasks[0], Retried) in w6.entries
    ensures !EntryAllowed(EntryFor(w5, 0, w5.tasks[0], Retried))
  {
    assert Starts(TakeFromHand(w3, 0), 0, AT_ONCE);
    w4 := Next(w3, BeginTask(0, AT_ONCE));
    w5 := Next(w4, SetPolicy("s", SourcePolicy("p", Unknown)));
    w6 := Next(w5, FinishTask(0, NetworkDown));
    FinishEntries(w5, 0, NetworkDown);
  }
}
