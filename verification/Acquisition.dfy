// What one submission, one start and one finish of a task do to the acquisition services as a whole:
// services/acquisition/scheduler.py, worker.py and repository.py over the queue, limiter and policy gate.
module Acquisition {
  import opened Prelude
  import opened Sorting
  import opened PolicyGate
  import opened RateLimiter
  import opened TaskQueue

  datatype TaskStatus = Queued | Running | Succeeded | Failed | Denied

  datatype Task = Task(
    taskType: TaskType,
    source: SourceId,
    domain: Domain,
    wellFormed: bool,  // the verdict of validate_queue_payload
    status: TaskStatus,
    attempt: int,
    maxAttempts: int,
    scheduledAt: Time)

  datatype Transition = Transition(taskId: Id, from: TaskStatus, to: TaskStatus, changedAt: Time)

  datatype AuditOutcome = LogDenied | LogFailed | LogSucceeded

  datatype AuditRecord = AuditRecord(taskId: Id, outcome: AuditOutcome, errorClass: Option<string>, attempt: int)

  // How a handler call ends: normally, or with one of the exceptions process_task tells apart.
  datatype Outcome = Completed | InvalidRequest | RateLimited | NetworkDown | Crashed(errorClass: string)

  // Two histories no service keeps: what entered the queue and which handler calls were made,
  // each with the policy status of the source at that moment.
  datatype EntryKind = Submitted | Deferred | Retried

  datatype Entry = Entry(taskId: Id, taskType: TaskType, status: PolicyStatus, kind: EntryKind)

  datatype HandlerCall = HandlerCall(taskId: Id, taskType: TaskType, status: PolicyStatus)

  datatype World = World(
    clock: Time,
    policies: map<SourceId, SourcePolicy>,
    rates: map<Domain, DomainPolicy>,
    ledgers: map<Domain, Ledger>,
    tasks: map<Id, Task>,
    queue: seq<QueueItem>,
    hand: seq<QueueItem>,  // popped, not yet processed
    transitions: seq<Transition>,
    audit: seq<AuditRecord>,
    entries: seq<Entry>,
    calls: seq<HandlerCall>)

  function RateOf(w: World, d: Domain): DomainPolicy {
    if d in w.rates then w.rates[d] else DEFAULT_POLICY
  }

  function LedgerOf(w: World, d: Domain): Ledger {
    LedgerAt(w.ledgers, d)
  }

  function LedgersAfter(w: World, d: Domain, call: Call): map<Domain, Ledger> {
    w.ledgers[d := Apply(RateOf(w, d), LedgerOf(w, d), Event(w.clock, call))]
  }

  function EntryFor(w: World, id: Id, t: Task, kind: EntryKind): Entry {
    Entry(id, t.taskType, StatusOf(w.policies, t.source), kind)
  }

  function MayRun(w: World, id: Id): bool
    requires id in w.tasks
  {
    Allowed(w.policies, w.tasks[id].source, w.tasks[id].taskType)
  }

  // ---------- scheduler ----------

  function Deny(w: World, id: Id, t: Task, errorClass: string): World {
    w.(tasks := w.tasks[id := t.(status := Denied)],
       audit := w.audit + [AuditRecord(id, LogDenied, Some(errorClass), t.attempt)])
  }

  predicate Accepts(w: World, t: Task) {
    t.wellFormed && Allowed(w.policies, t.source, t.taskType)
  }

  function Submit(w: World, id: Id, t: Task): World {
    if !t.wellFormed then Deny(w, id, t, "QueuePayloadError")
    else if !Allowed(w.policies, t.source, t.taskType) then Deny(w, id, t, "PolicyDenied")
    else
      var at := Max(t.scheduledAt, NextAvailable(RateOf(w, t.domain), LedgerOf(w, t.domain).st, w.clock));
      w.(ledgers := LedgersAfter(w, t.domain, Peek),
         tasks := w.tasks[id := t.(scheduledAt := at, status := Queued)],
         queue := Insert(w.queue, QueueItem(id, at), ItemLe),
         entries := w.entries + [EntryFor(w, id, t, Submitted)])
  }

  // ---------- worker, up to the handler call ----------

  // lag is how the clock moves while the limiter is asked.
  predicate Starts(w: World, id: Id, lag: Lag) {
    && id in w.tasks
    && MayRun(w, id)
    && Decides(RateOf(w, w.tasks[id].domain), LedgerOf(w, w.tasks[id].domain).st,
               w.clock + lag.ask, w.clock + lag.ask + lag.look)
  }

  function Start(w: World, id: Id, lag: Lag): World
    requires id in w.tasks
  {
    var t, now := w.tasks[id], EndAt(Event(w.clock, TryAcquire(lag)));
    w.(clock := now, ledgers := LedgersAfter(w, t.domain, TryAcquire(lag)),
       tasks := w.tasks[id := t.(status := Running, attempt := t.attempt + 1)],
       transitions := w.transitions + [Transition(id, t.status, Running, now)],
       calls := if t.taskType in FIRECRAWL_TASKS
                then w.calls + [HandlerCall(id, t.taskType, StatusOf(w.policies, t.source))] else w.calls)
  }

  function Defer(w: World, id: Id, lag: Lag): World
    requires id in w.tasks
  {
    var t, now := w.tasks[id], EndAt(Event(w.clock, TryAcquire(lag)));
    var at := Deferral(RateOf(w, t.domain), LedgerOf(w, t.domain).st, w.clock, lag);
    w.(clock := now, ledgers := LedgersAfter(w, t.domain, TryAcquire(lag)),
       tasks := w.tasks[id := t.(status := Queued, scheduledAt := at)],
       transitions := w.transitions + [Transition(id, t.status, Queued, now)],
       queue := Insert(w.queue, QueueItem(id, at), ItemLe),
       entries := w.entries + [EntryFor(w, id, t, Deferred)])
  }

  function Refuse(w: World, id: Id): World
    requires id in w.tasks
  {
    var t := w.tasks[id];
    w.(tasks := w.tasks[id := t.(status := Denied)],
       transitions := w.transitions + [Transition(id, t.status, Denied, w.clock)],
       audit := w.audit + [AuditRecord(id, LogDenied, Some("PolicyDenied"), t.attempt)])
  }

  function Begin(w: World, id: Id, lag: Lag): World {
    if id !in w.tasks then w
    else if !MayRun(w, id) then Refuse(w, id)
    else if Starts(w, id, lag) then Start(w, id, lag)
    else Defer(w, id, lag)
  }

  // ---------- worker, after the handler call ----------

  // Only Firecrawl tasks call the handler; every other type simply completes.
  function Effective(t: Task, outcome: Outcome): Outcome {
    if t.taskType in FIRECRAWL_TASKS then outcome else Completed
  }

  function ErrorClass(outcome: Outcome): Option<string> {
    match outcome
    case Completed => None
    case InvalidRequest => Some("AdapterValidationError")
    case RateLimited => Some("UpstreamRateLimitError")
    case NetworkDown => Some("TransientNetworkError")
    case Crashed(e) => Some(e)
  }

  predicate Transient(outcome: Outcome) { outcome.RateLimited? || outcome.NetworkDown? }

  predicate Retries(t: Task, outcome: Outcome) {
    Transient(Effective(t, outcome)) && t.attempt < t.maxAttempts
  }

  function Cooldown(w: World, d: Domain): Time {
    w.clock + Delay(RateOf(w, d), LedgerOf(w, d).st.errorCount + 1)
  }

  function Concluded(p: DomainPolicy, l: Ledger, now: Time, outcome: Outcome): Ledger {
    if Transient(outcome) then Apply(p, Apply(p, l, Event(now, RegisterError)), Event(now, Release(false)))
    else Apply(p, l, Event(now, Release(outcome == Completed)))
  }

  function FinalStatus(t: Task, outcome: Outcome): TaskStatus {
    if Effective(t, outcome) == Completed then Succeeded else if Retries(t, outcome) then Queued else Failed
  }

  function Finish(w: World, id: Id, outcome: Outcome): World
    requires id in w.tasks
  {
    var t := w.tasks[id];
    var eff, status := Effective(t, outcome), FinalStatus(t, outcome);
    var at := if status == Queued then Cooldown(w, t.domain) else t.scheduledAt;
    w.(ledgers := w.ledgers[t.domain := Concluded(RateOf(w, t.domain), LedgerOf(w, t.domain), w.clock, eff)],
       tasks := w.tasks[id := t.(status := status, scheduledAt := at)],
       transitions := w.transitions + [Transition(id, t.status, status, w.clock)],
       audit := w.audit + [AuditRecord(id, if eff == Completed then LogSucceeded else LogFailed, ErrorClass(eff),
                                       t.attempt)],
       queue := if status == Queued then Insert(w.queue, QueueItem(id, at), ItemLe) else w.queue,
       entries := if status == Queued then w.entries + [EntryFor(w, id, t, Retried)] else w.entries)
  }

  // One undisturbed call of process_task whose handler takes until `later`.
  function Process(w: World, id: Id, lag: Lag, later: Time, outcome: Outcome): World {
    if Starts(w, id, lag) then Finish(Start(w, id, lag).(clock := later), id, outcome)
    else Begin(w, id, lag).(clock := later)
  }

  // ---------- what submitting and processing mean, in the fields themselves ----------

  // The policy repository lets this type of task through for this source.
  ghost predicate Permits(policies: map<SourceId, SourcePolicy>, source: SourceId, taskType: TaskType) {
    source in policies &&
    (policies[source].status == CrawlAllowed || (policies[source].status == ManualOnly && taskType == ImportTask))
  }

  // Only this task is stored, and the policies, the rates and the popped items stay.
  ghost predicate Concerns(w: World, w': World, id: Id) {
    && id in w'.tasks && w'.tasks == w.tasks[id := w'.tasks[id]]
    && w'.policies == w.policies && w'.rates == w.rates && w'.hand == w.hand
  }

  ghost predicate OthersUntouched(w: World, w': World, d: Domain) {
    forall d2 {:trigger LedgerAt(w'.ledgers, d2)} :: d2 != d ==> LedgerAt(w'.ledgers, d2) == LedgerAt(w.ledgers, d2)
  }

  // A malformed or forbidden task is stored as denied and logged with the reason; any other is queued no earlier than
  // it asks for and no earlier than its domain is ready, and as early as that allows.
  ghost predicate SubmittedAs(w: World, w': World, id: Id, t: Task) {
    && Concerns(w, w', id) && w'.clock == w.clock && w'.transitions == w.transitions && w'.calls == w.calls
    && OthersUntouched(w, w', t.domain)
    && (if !t.wellFormed || !Permits(w.policies, t.source, t.taskType) then
          && w'.tasks[id] == t.(status := Denied) && w'.queue == w.queue && w'.ledgers == w.ledgers
          && w'.audit == w.audit + [AuditRecord(id, LogDenied,
               Some(if t.wellFormed then "PolicyDenied" else "QueuePayloadError"), t.attempt)]
        else
          var at, p, st := w'.tasks[id].scheduledAt, RateOf(w, t.domain), LedgerAt(w.ledgers, t.domain).st;
          && w'.tasks[id] == t.(status := Queued, scheduledAt := at) && w'.audit == w.audit
          && Gained(w.queue, w'.queue, QueueItem(id, at))
          && t.scheduledAt <= at && MayGoAt(p, st, w.clock, at)
          && (forall u :: t.scheduledAt <= u && MayGoAt(p, st, w.clock, u) ==> at <= u))
  }

  lemma SubmitMeans(w: World, id: Id, t: Task)
    ensures SubmittedAs(w, Submit(w, id, t), id, t)
  {
    AllowedExactly(w.policies, t.source, t.taskType);
    if Accepts(w, t) {
      var p, st := RateOf(w, t.domain), LedgerAt(w.ledgers, t.domain).st;
      var next := NextAvailable(p, st, w.clock);
      AvailableIsEarliest(p, st, w.clock);
      InsertGains(w.queue, QueueItem(id, Max(t.scheduledAt, next)));
      LaterStillMayGo(p, st, w.clock, next, Max(t.scheduledAt, next));
      hide MayGoAt, NextAvailable, Apply, Gained, Allowed, Permits;
    }
  }

  lemma LaterStillMayGo(p: DomainPolicy, st: DomainState, now: Time, t: Time, u: Time)
    requires MayGoAt(p, st, now, t) && t <= u
    ensures MayGoAt(p, st, now, u)
  {
  }

  // The clock has gone through the readings of the acquire.
  function Looked(w: World, lag: Lag): Time { w.clock + lag.ask + lag.look }

  ghost predicate IsGranted(w: World, id: Id, lag: Lag)
    requires id in w.tasks
  {
    var p, st := RateOf(w, w.tasks[id].domain), LedgerAt(w.ledgers, w.tasks[id].domain).st;
    st.inflight < p.concurrencyCap && lag.look == 0 && MayGoAt(p, st, Looked(w, lag), Looked(w, lag))
  }

  // A forbidden task is denied and logged; one whose domain does not grant a slot is queued again at a later time; any
  // other runs, counts its attempt, takes the slot, and is handed over if it is a Firecrawl task.
  ghost predicate BegunAs(w: World, w': World, id: Id, lag: Lag)
    requires id in w.tasks
  {
    var t := w.tasks[id];
    var p, st := RateOf(w, t.domain), LedgerAt(w.ledgers, t.domain).st;
    && Concerns(w, w', id) && OthersUntouched(w, w', t.domain)
    && (var t', st' := w'.tasks[id], LedgerAt(w'.ledgers, t.domain).st;
        && w'.transitions == w.transitions + [Transition(id, t.status, t'.status, w'.clock)]
        && (if !Permits(w.policies, t.source, t.taskType) then
              && t' == t.(status := Denied) && w'.clock == w.clock
              && w'.queue == w.queue && w'.ledgers == w.ledgers && w'.calls == w.calls
              && w'.audit == w.audit + [AuditRecord(id, LogDenied, Some("PolicyDenied"), t.attempt)]
            else
              && w'.clock == Looked(w, lag) + lag.again && w'.audit == w.audit
              && (if IsGranted(w, id, lag) then
                    && t' == t.(status := Running, attempt := t.attempt + 1) && w'.queue == w.queue
                    && Acquired(p, st, st', w.clock, Looked(w, lag))
                    && w'.calls == w.calls + if t.taskType == CrawlTask || t.taskType == ScrapeTask
                                             then [HandlerCall(id, t.taskType, w.policies[t.source].status)] else []
                  else
                    && t' == t.(status := Queued, scheduledAt := t'.scheduledAt) && w'.calls == w.calls
                    && Gained(w.queue, w'.queue, QueueItem(id, t'.scheduledAt))
                    && Untouched(st, st') && w'.clock <= t'.scheduledAt
                    && (lag == AT_ONCE ==> Earliest(p, st, w.clock, t'.scheduledAt)))))
  }

  lemma BeginMeans(w: World, id: Id, lag: Lag)
    requires id in w.tasks
    ensures BegunAs(w, Begin(w, id, lag), id, lag)
    ensures Starts(w, id, lag) <==>
            Permits(w.policies, w.tasks[id].source, w.tasks[id].taskType) && IsGranted(w, id, lag)
  {
    hide Apply, MayGoAt, Acquired, Untouched, Earliest, Gained, Deferral, Decides, Insert;
    var t := w.tasks[id];
    var p, l := RateOf(w, t.domain), LedgerAt(w.ledgers, t.domain);
    AllowedExactly(w.policies, t.source, t.taskType);
    DecidesPlainly(p, l.st, w.clock + lag.ask, Looked(w, lag));
    AcquireWrites(p, l, w.clock, lag);
    DefersPlainly(p, l.st, w.clock, lag);
    InsertGains(w.queue, QueueItem(id, Deferral(p, l.st, w.clock, lag)));
  }

  // How a running task ends, by what its handler did. Only Firecrawl tasks have one; any other type succeeds.
  ghost predicate EndsAs(w: World, w': World, id: Id, handler: Outcome)
    requires id in w.tasks
  {
    var t := w.tasks[id];
    && Concerns(w, w', id) && OthersUntouched(w, w', t.domain)
    && w'.clock == w.clock && w'.calls == w.calls
    && w'.transitions == w.transitions + [Transition(id, t.status, w'.tasks[id].status, w.clock)]
    && FreesOneSlot(LedgerAt(w.ledgers, t.domain), LedgerAt(w'.ledgers, t.domain))
    && (if t.taskType != CrawlTask && t.taskType != ScrapeTask then SucceedsAs(w, w', id)
        else match handler
          case Completed => SucceedsAs(w, w', id)
          case InvalidRequest => FailsAs(w, w', id, "AdapterValidationError")
          case Crashed(errorClass) => FailsAs(w, w', id, errorClass)
          case RateLimited => BacksOffAs(w, w', id, "UpstreamRateLimitError")
          case NetworkDown => BacksOffAs(w, w', id, "TransientNetworkError"))
  }

  ghost predicate FreesOneSlot(l: Ledger, l': Ledger) {
    && l'.st.inflight == (if l.st.inflight == 0 then 0 else l.st.inflight - 1) && l'.grants == l.grants
    && l'.st.lastRequestAt == l.st.lastRequestAt
    && l'.st.windowStart == l.st.windowStart && l'.st.windowCount == l.st.windowCount
  }

  ghost predicate SucceedsAs(w: World, w': World, id: Id)
    requires id in w.tasks && id in w'.tasks
  {
    var t, st' := w.tasks[id], LedgerAt(w'.ledgers, w.tasks[id].domain).st;
    && w'.tasks[id] == t.(status := Succeeded) && w'.queue == w.queue
    && st'.errorCount == 0 && st'.cooldownUntil == None
    && w'.audit == w.audit + [AuditRecord(id, LogSucceeded, None, t.attempt)]
  }

  ghost predicate FailsAs(w: World, w': World, id: Id, errorClass: string)
    requires id in w.tasks && id in w'.tasks
  {
    var t, st := w.tasks[id], LedgerAt(w.ledgers, w.tasks[id].domain).st;
    var st' := LedgerAt(w'.ledgers, t.domain).st;
    && w'.tasks[id] == t.(status := Failed) && w'.queue == w.queue
    && st'.errorCount == st.errorCount && st'.cooldownUntil == st.cooldownUntil
    && w'.audit == w.audit + [AuditRecord(id, LogFailed, Some(errorClass), t.attempt)]
  }

  // The error counts and cools the domain down; the task is queued for the end of the cooldown while it has attempts
  // left, and fails otherwise.
  ghost predicate BacksOffAs(w: World, w': World, id: Id, errorClass: string)
    requires id in w.tasks && id in w'.tasks
  {
    var t, st := w.tasks[id], LedgerAt(w.ledgers, w.tasks[id].domain).st;
    var st', k := LedgerAt(w'.ledgers, t.domain).st, st.errorCount + 1;
    && st'.errorCount == k && st'.cooldownUntil.Some?
    && IsBackoff(RateOf(w, t.domain), k, st'.cooldownUntil.value - w.clock)
    && (if t.attempt < t.maxAttempts then
          && w'.tasks[id] == t.(status := Queued, scheduledAt := st'.cooldownUntil.value)
          && Gained(w.queue, w'.queue, QueueItem(id, st'.cooldownUntil.value))
        else w'.tasks[id] == t.(status := Failed) && w'.queue == w.queue)
    && w'.audit == w.audit + [AuditRecord(id, LogFailed, Some(errorClass), t.attempt)]
  }

  lemma FinishMeans(w: World, id: Id, handler: Outcome)
    requires id in w.tasks
    ensures EndsAs(w, Finish(w, id, handler), id, handler)
  {
    hide Insert, Gained, IsBackoff, Delay;
    var t := w.tasks[id];
    DelayIsBackoff(RateOf(w, t.domain), LedgerAt(w.ledgers, t.domain).st.errorCount + 1);
    InsertGains(w.queue, QueueItem(id, Cooldown(w, t.domain)));
  }

  // One undisturbed call of process_task: nothing for an unknown id; else a begin, and if that starts the task, an end.
  ghost predicate ProcessedAs(w: World, w': World, id: Id, lag: Lag, later: Time, handler: Outcome) {
    if id !in w.tasks then w' == w.(clock := later)
    else exists begun ::
      && BegunAs(w, begun, id, lag)
      && if Permits(w.policies, w.tasks[id].source, w.tasks[id].taskType) && IsGranted(w, id, lag)
         then EndsAs(begun.(clock := later), w', id, handler) else w' == begun.(clock := later)
  }

  lemma ProcessMeans(w: World, id: Id, lag: Lag, later: Time, handler: Outcome)
    ensures ProcessedAs(w, Process(w, id, lag, later, handler), id, lag, later, handler)
  {
    hide Finish, EndsAs, BegunAs, IsGranted, Permits, Start, Defer, Refuse, Decides;
    if id in w.tasks {
      BeginMeans(w, id, lag);
      BegunKeepsTask(w, id, lag);
      if Starts(w, id, lag) {
        FinishMeans(Begin(w, id, lag).(clock := later), id, handler);
      }
    }
  }

  lemma BegunKeepsTask(w: World, id: Id, lag: Lag)
    requires id in w.tasks
    ensures id in Begin(w, id, lag).tasks
  {
    hide Decides, Apply, Deferral;
  }

  // ---------- the single effects those are made of ----------

  function WithCall(w: World, d: Domain, call: Call): World {
    w.(clock := EndAt(Event(w.clock, call)), ledgers := LedgersAfter(w, d, call))
  }

  function WithStatus(w: World, id: Id, to: TaskStatus): World
    requires id in w.tasks
  {
    w.(tasks := w.tasks[id := w.tasks[id].(status := to)],
       transitions := w.transitions + [Transition(id, w.tasks[id].status, to, w.clock)])
  }

  function WithRecord(w: World, id: Id, outcome: AuditOutcome, errorClass: Option<string>): World
    requires id in w.tasks
  {
    w.(audit := w.audit + [AuditRecord(id, outcome, errorClass, w.tasks[id].attempt)])
  }

  function WithDelay(w: World, id: Id, at: Time, kind: EntryKind): World
    requires id in w.tasks
  {
    var t := w.tasks[id];
    w.(tasks := w.tasks[id := t.(scheduledAt := at, status := Queued)],
       transitions := w.transitions + [Transition(id, t.status, Queued, w.clock)],
       queue := Insert(w.queue, QueueItem(id, at), ItemLe),
       entries := w.entries + [EntryFor(w, id, t, kind)])
  }

  lemma BackOffIsFinish(w: World, id: Id, handler: Outcome)
    requires id in w.tasks && Transient(Effective(w.tasks[id], handler))
    ensures var t := w.tasks[id];
            var freed := WithCall(WithCall(w, t.domain, RegisterError), t.domain, Release(false));
            var moved := if t.attempt < t.maxAttempts then WithDelay(freed, id, Cooldown(w, t.domain), Retried)
                         else WithStatus(freed, id, Failed);
            WithRecord(moved, id, LogFailed, ErrorClass(Effective(t, handler))) == Finish(w, id, handler)
  {
    hide Apply, Delay, Insert;
  }

  // The effects before the handler call, by branch.
  lemma BeginSteps(w: World, id: Id, lag: Lag)
    requires id in w.tasks
    ensures var t := w.tasks[id];
            var called := WithCall(w, t.domain, TryAcquire(lag));
            && (!MayRun(w, id) ==>
                  !Starts(w, id, lag)
                  && Begin(w, id, lag) == WithRecord(WithStatus(w, id, Denied), id, LogDenied, Some("PolicyDenied")))
            && (MayRun(w, id) && !Starts(w, id, lag) ==>
                  Begin(w, id, lag) ==
                  WithDelay(called, id, Deferral(RateOf(w, t.domain), LedgerOf(w, t.domain).st, w.clock, lag),
                            Deferred))
  {
    hide Apply, Decides, Deferral, Insert;
  }

  lemma UnknownChangesNothing(w: World, id: Id, lag: Lag)
    requires id !in w.tasks
    ensures Begin(w, id, lag) == w && !Starts(w, id, lag)
  {
  }

  // ---------- the services ----------

  class PolicyRepository {
    var policies: map<SourceId, SourcePolicy>

    constructor ()
      ensures policies == map[]
    {
      policies := map[];
    }

    method UpsertPolicy(source: SourceId, policy: SourcePolicy)
      modifies this
      ensures policies == old(policies)[source := policy]
    {
      policies := policies[source := policy];
    }
  }

  class TaskRepository {
    var tasks: map<Id, Task>
    var transitions: seq<Transition>

    constructor ()
      ensures tasks == map[] && transitions == []
    {
      tasks, transitions := map[], [];
    }

    method Add(id: Id, t: Task)
      modifies this`tasks
      ensures tasks == old(tasks)[id := t]
    {
      tasks := tasks[id := t];
    }

    method UpdateStatus(id: Id, status: TaskStatus, now: Time)
      requires id in tasks
      modifies this
      ensures tasks == old(tasks)[id := old(tasks)[id].(status := status)]
      ensures transitions == old(transitions) + [Transition(id, old(tasks)[id].status, status, now)]
    {
      var fromStatus := tasks[id].status;
      tasks := tasks[id := tasks[id].(status := status)];
      transitions := transitions + [Transition(id, fromStatus, status, now)];
    }

    method IncrementAttempt(id: Id) returns (attempt: int)
      requires id in tasks
      modifies this`tasks
      ensures tasks == old(tasks)[id := old(tasks)[id].(attempt := old(tasks)[id].attempt + 1)]
      ensures attempt == old(tasks)[id].attempt + 1
    {
      tasks := tasks[id := tasks[id].(attempt := tasks[id].attempt + 1)];
      attempt := tasks[id].attempt;
    }
  }

  class AuditLogRepository {
    var records: seq<AuditRecord>

    constructor ()
      ensures records == []
    {
      records := [];
    }

    method Add(record: AuditRecord)
      modifies this
      ensures records == old(records) + [record]
    {
      records := records + [record];
    }
  }

  class Journal {
    ghost var entries: seq<Entry>
    ghost var calls: seq<HandlerCall>

    constructor ()
      ensures entries == [] && calls == []
    {
      entries, calls := [], [];
    }
  }

  // The objects a scheduler and a worker share.
  datatype Services = Services(
    queue: InMemoryQueueAdapter,
    repository: TaskRepository,
    gate: PolicyRepository,
    audit: AuditLogRepository,
    limiter: DomainRateLimiter,
    journal: Journal)
  {
    ghost function View(clock: Time, hand: seq<QueueItem>): World
      reads queue, repository, gate, audit, limiter, journal
    {
      World(clock, gate.policies, limiter.policies, limiter.ledgers, repository.tasks, queue.items, hand,
            repository.transitions, audit.records, journal.entries, journal.calls)
    }
  }

  class TaskScheduler {
    const s: Services

    constructor (s: Services)
      ensures this.s == s
    {
      this.s := s;
    }

    method DenyTask(id: Id, task: Task, errorClass: string, ghost now: Time, ghost hand: seq<QueueItem>)
      modifies s.repository, s.audit
      ensures s.View(now, hand) == Deny(old(s.View(now, hand)), id, task, errorClass)
    {
      var denied := task.(status := Denied);
      s.repository.Add(id, denied);
      s.audit.Add(AuditRecord(id, LogDenied, Some(errorClass), denied.attempt));
    }

    method SubmitTask(id: Id, t: Task, now: Time, ghost hand: seq<QueueItem>) returns (accepted: bool)
      requires s.limiter.Valid()
      modifies s.queue, s.repository, s.audit, s.limiter, s.journal
      ensures s.limiter.Valid()
      ensures s.View(now, hand) == Submit(old(s.View(now, hand)), id, t)
      ensures accepted == Accepts(old(s.View(now, hand)), t)
      ensures var w := old(s.View(now, hand));
              && (accepted <==> t.wellFormed && Permits(w.policies, t.source, t.taskType))
              && SubmittedAs(w, s.View(now, hand), id, t)
    {
      hide Apply, NextAvailable, SubmittedAs;
      SubmitMeans(s.View(now, hand), id, t);
      AllowedExactly(s.gate.policies, t.source, t.taskType);
      if !t.wellFormed {
        DenyTask(id, t, "QueuePayloadError", now, hand);
        return false;
      }
      if !Allowed(s.gate.policies, t.source, t.taskType) {
        DenyTask(id, t, "PolicyDenied", now, hand);
        return false;
      }
      var next := s.limiter.NextAvailableTime(t.domain, now);
      var task := t.(scheduledAt := Max(t.scheduledAt, next));
      task := task.(status := Queued);
      s.repository.Add(id, task);
      var _ := s.queue.Enqueue(id, task.scheduledAt);
      s.journal.entries := s.journal.entries + [Entry(id, t.taskType, StatusOf(s.gate.policies, t.source), Submitted)];
      accepted := true;
    }
  }

  class TaskWorker {
    const s: Services

    constructor (s: Services)
      ensures this.s == s
    {
      this.s := s;
    }

    method EnqueueDelayed(id: Id, at: Time, ghost kind: EntryKind, now: Time, ghost hand: seq<QueueItem>)
      requires id in s.repository.tasks
      modifies s.queue, s.repository, s.journal
      ensures s.View(now, hand) == WithDelay(old(s.View(now, hand)), id, at, kind)
    {
      var t := s.repository.tasks[id];
      s.repository.Add(id, t.(scheduledAt := at));
      s.repository.UpdateStatus(id, Queued, now);
      var _ := s.queue.Enqueue(id, at);
      s.journal.entries := s.journal.entries + [Entry(id, t.taskType, StatusOf(s.gate.policies, t.source), kind)];
    }

    method LogOutcome(id: Id, outcome: AuditOutcome, errorClass: Option<string>, ghost now: Time,
                      ghost hand: seq<QueueItem>)
      requires id in s.repository.tasks
      modifies s.audit
      ensures s.View(now, hand) == WithRecord(old(s.View(now, hand)), id, outcome, errorClass)
    {
      s.audit.Add(AuditRecord(id, outcome, errorClass, s.repository.tasks[id].attempt));
    }

    // The calls a worker makes on its services, each told as a step of the whole view.
    method SetStatus(id: Id, status: TaskStatus, now: Time, ghost hand: seq<QueueItem>)
      requires id in s.repository.tasks
      modifies s.repository
      ensures s.View(now, hand) == WithStatus(old(s.View(now, hand)), id, status)
      ensures id in s.repository.tasks
    {
      s.repository.UpdateStatus(id, status, now);
    }

    method AcquireSlot(d: Domain, t0: Time, t1: Time, t2: Time, t3: Time, ghost hand: seq<QueueItem>)
      returns (deferUntil: Option<Time>)
      requires s.limiter.Valid() && t0 <= t1 <= t2 <= t3
      modifies s.limiter`states, s.limiter`ledgers
      ensures s.limiter.Valid()
      ensures var w, lag := old(s.View(t0, hand)), Lag(t1 - t0, t2 - t1, t3 - t2);
              && s.View(t3, hand) == WithCall(w, d, TryAcquire(lag))
              && deferUntil == if Decides(RateOf(w, d), LedgerOf(w, d).st, t1, t2) then None
                               else Some(Deferral(RateOf(w, d), LedgerOf(w, d).st, t0, lag))
    {
      deferUntil := s.limiter.Acquire(d, t0, t1, t2, t3);
    }

    method ReleaseSlot(d: Domain, success: bool, ghost now: Time, ghost hand: seq<QueueItem>)
      requires s.limiter.Valid()
      modifies s.limiter`states, s.limiter`ledgers
      ensures s.limiter.Valid()
      ensures s.View(now, hand) == WithCall(old(s.View(now, hand)), d, Release(success))
    {
      s.limiter.Release(d, success, now);
    }

    method RegisterError(d: Domain, now: Time, ghost hand: seq<QueueItem>) returns (cooldown: Time)
      requires s.limiter.Valid()
      modifies s.limiter`states, s.limiter`ledgers
      ensures s.limiter.Valid()
      ensures s.View(now, hand) == WithCall(old(s.View(now, hand)), d, Call.RegisterError)
      ensures cooldown == Cooldown(old(s.View(now, hand)), d)
    {
      cooldown := s.limiter.RegisterError(d, now);
    }

    method MarkStarted(id: Id, now: Time, ghost hand: seq<QueueItem>, ghost lag: Lag)
      requires s.limiter.Valid() && id in s.repository.tasks
      modifies s.repository, s.journal
      ensures var w := old(s.View(now, hand));
              forall w0 :: w == WithCall(w0, w.tasks[id].domain, TryAcquire(lag)) ==>
                s.View(now, hand) == Start(w0, id, lag)
      ensures id in s.repository.tasks
    {
      ghost var before := s.View(now, hand);
      SetStatus(id, Running, now, hand);
      var attempt := s.repository.IncrementAttempt(id);
      var task := s.repository.tasks[id];
      if task.taskType in FIRECRAWL_TASKS {
        s.journal.calls := s.journal.calls + [HandlerCall(id, task.taskType, StatusOf(s.gate.policies, task.source))];
      }
    }

    // The task is fetched, the policy asked again and the limiter tried, at t0 and the readings after it; `handler` and
    // `later` are what the handler would do and when it would be done, should it be called.
    method ProcessTask(id: Id, t0: Time, t1: Time, t2: Time, t3: Time, later: Time, handler: Outcome,
                       ghost hand: seq<QueueItem>)
      requires s.limiter.Valid() && t0 <= t1 <= t2 <= t3
      modifies s.queue, s.repository, s.audit, s.limiter`states, s.limiter`ledgers, s.journal
      ensures s.limiter.Valid()
      ensures s.View(later, hand) ==
              Process(old(s.View(t0, hand)), id, Lag(t1 - t0, t2 - t1, t3 - t2), later, handler)
      ensures ProcessedAs(old(s.View(t0, hand)), s.View(later, hand), id, Lag(t1 - t0, t2 - t1, t3 - t2), later,
                          handler)
    {
      hide Apply, Decides, Deferral, Begin, Start, Finish, WithCall, WithDelay, WithStatus, WithRecord, ProcessedAs;
      ProcessMeans(s.View(t0, hand), id, Lag(t1 - t0, t2 - t1, t3 - t2), later, handler);
      if id !in s.repository.tasks {
        UnknownChangesNothing(s.View(t0, hand), id, Lag(t1 - t0, t2 - t1, t3 - t2));
        return;
      }
      var task := s.repository.tasks[id];
      ghost var w, lag := s.View(t0, hand), Lag(t1 - t0, t2 - t1, t3 - t2);
      BeginSteps(w, id, lag);
      if !Allowed(s.gate.policies, task.source, task.taskType) {
        SetStatus(id, Denied, t0, hand);
        LogOutcome(id, LogDenied, Some("PolicyDenied"), t0, hand);
        assert s.View(t0, hand) == Begin(w, id, lag);
        return;
      }
      var delayUntil := AcquireSlot(task.domain, t0, t1, t2, t3, hand);
      if delayUntil != None {
        EnqueueDelayed(id, delayUntil.value, Deferred, t3, hand);
        assert s.View(t3, hand) == Begin(w, id, lag);
        return;
      }
      MarkStarted(id, t3, hand, lag);
      assert s.View(t3, hand) == Start(w, id, lag);
      Conclude(id, later, handler, hand);
    }

    // The branches of process_task after the handler has returned or raised.
    method Conclude(id: Id, now: Time, handler: Outcome, ghost hand: seq<QueueItem>)
      requires s.limiter.Valid() && id in s.repository.tasks
      modifies s.queue, s.repository, s.audit, s.limiter`states, s.limiter`ledgers, s.journal
      ensures s.limiter.Valid()
      ensures s.View(now, hand) == Finish(old(s.View(now, hand)), id, handler)
      ensures EndsAs(old(s.View(now, hand)), s.View(now, hand), id, handler)
    {
      hide Apply, EndsAs;
      FinishMeans(s.View(now, hand), id, handler);
      var task := s.repository.tasks[id];
      var outcome := Effective(task, handler);
      if outcome.RateLimited? || outcome.NetworkDown? {
        BackOff(id, now, handler, hand);
      } else if outcome.Completed? {
        ReleaseSlot(task.domain, true, now, hand);
        SetStatus(id, Succeeded, now, hand);
        LogOutcome(id, LogSucceeded, None, now, hand);
      } else {
        ReleaseSlot(task.domain, false, now, hand);
        SetStatus(id, Failed, now, hand);
        LogOutcome(id, LogFailed, ErrorClass(outcome), now, hand);
      }
    }

    method BackOff(id: Id, now: Time, handler: Outcome, ghost hand: seq<QueueItem>)
      requires s.limiter.Valid() && id in s.repository.tasks && Transient(Effective(s.repository.tasks[id], handler))
      modifies s.queue, s.repository, s.audit, s.limiter`states, s.limiter`ledgers, s.journal
      ensures s.limiter.Valid()
      ensures s.View(now, hand) == Finish(old(s.View(now, hand)), id, handler)
    {
      hide Apply, Finish, Cooldown, WithRecord, WithCall;
      ghost var w := s.View(now, hand);
      var task := s.repository.tasks[id];
      var outcome := Effective(task, handler);
      var cooldown := RegisterError(task.domain, now, hand);
      ReleaseSlot(task.domain, false, now, hand);
      BackOffIsFinish(w, id, handler);
      if task.attempt < task.maxAttempts {
        EnqueueDelayed(id, cooldown, Retried, now, hand);
      } else {
        SetStatus(id, Failed, now, hand);
      }
      LogOutcome(id, LogFailed, ErrorClass(outcome), now, hand);
    }
  }
}
