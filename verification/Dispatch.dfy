// services/alerts: sending an alert at most a bounded number of times, with an append-only log.
module Dispatch {
  import opened Prelude

  datatype Channel = Local | Smtp

  datatype Key = Key(alertId: Id, channel: Channel)  // the idempotency key

  datatype Status = Pending | Succeeded | Retrying | Failed

  datatype LogEntry = LogEntry(key: Key, status: Status, attempt: nat)

  datatype DispatchState = DispatchState(attempts: nat, succeeded: bool, terminalFailure: bool)

  const NEW_STATE := DispatchState(0, false, false)

  const NEW_BOOK := Book(map[], [])

  // The part of the alert repository that dispatching touches.
  datatype Book = Book(states: map<Key, DispatchState>, log: seq<LogEntry>)

  function StateOf(b: Book, k: Key): DispatchState { if k in b.states then b.states[k] else NEW_STATE }

  predicate Reservable(b: Book, k: Key, maxAttempts: int) {
    var s := StateOf(b, k);
    !s.succeeded && !s.terminalFailure && s.attempts < maxAttempts
  }

  function Reserve(b: Book, k: Key, maxAttempts: int): Book {
    var s := StateOf(b, k);
    if !Reservable(b, k, maxAttempts) then b.(states := b.states[k := s])
    else Book(b.states[k := s.(attempts := s.attempts + 1)], b.log + [LogEntry(k, Pending, s.attempts + 1)])
  }

  function Record(b: Book, k: Key, attempt: nat, status: Status): Book {
    var s := StateOf(b, k);
    Book(b.states[k := s.(succeeded := s.succeeded || status == Succeeded,
                          terminalFailure := s.terminalFailure || status == Failed)],
         b.log + [LogEntry(k, status, attempt)])
  }

  datatype SendResult = SendResult(success: bool, retryable: bool)

  // Without a dispatcher for the channel the result is retryable.
  const NO_DISPATCHER := SendResult(false, true)

  function StatusFor(r: SendResult, attempt: nat, maxAttempts: int): Status {
    if r.success then Succeeded else if r.retryable && attempt < maxAttempts then Retrying else Failed
  }

  class DispatchRepository {
    var states: map<Key, DispatchState>
    var log: seq<LogEntry>

    ghost function View(): Book reads this { Book(states, log) }

    constructor ()
      ensures View() == NEW_BOOK
    {
      states, log := map[], [];
    }

    method ReserveDispatch(k: Key, maxAttempts: int) returns (attempt: Option<nat>)
      modifies this
      ensures View() == Reserve(old(View()), k, maxAttempts)
      ensures attempt == if Reservable(old(View()), k, maxAttempts)
                         then Some(StateOf(old(View()), k).attempts + 1) else None
    {
      var state := if k in states then states[k] else NEW_STATE;
      states := states[k := state];
      if state.succeeded || state.terminalFailure || state.attempts >= maxAttempts { return None; }
      state := state.(attempts := state.attempts + 1);
      states := states[k := state];
      log := log + [LogEntry(k, Pending, state.attempts)];
      attempt := Some(state.attempts);
    }

    method RecordDispatchResult(k: Key, attempt: nat, status: Status)
      modifies this
      ensures View() == Record(old(View()), k, attempt, status)
    {
      var state := if k in states then states[k] else NEW_STATE;
      if status == Succeeded {
        state := state.(succeeded := true);
      } else if status == Failed {
        state := state.(terminalFailure := true);
      }
      states := states[k := state];
      log := log + [LogEntry(k, status, attempt)];
    }
  }

  // ---------- the log of one key ----------

  function EntriesOf(log: seq<LogEntry>, k: Key): seq<LogEntry> {
    if log == [] then []
    else EntriesOf(log[..|log| - 1], k) + if log[|log| - 1].key == k then [log[|log| - 1]] else []
  }

  function Successes(log: seq<LogEntry>): nat {
    if log == [] then 0 else Successes(log[..|log| - 1]) + if log[|log| - 1].status == Succeeded then 1 else 0
  }

  lemma EntriesAppend(log: seq<LogEntry>, e: LogEntry, k: Key)
    ensures EntriesOf(log + [e], k) == EntriesOf(log, k) + if e.key == k then [e] else []
  {
    assert (log + [e])[..|log|] == log;
  }

  lemma SuccessesAppend(log: seq<LogEntry>, e: LogEntry)
    ensures Successes(log + [e]) == Successes(log) + if e.status == Succeeded then 1 else 0
  {
    assert (log + [e])[..|log|] == log;
  }

  // (pending 1, result 1), (pending 2, result 2), ...: every result but the last asks for a retry, the last one only
  // while attempts remain, and the state's flags tell the last result.
  ghost predicate Grammar(es: seq<LogEntry>, s: DispatchState, maxAttempts: int) {
    var k := s.attempts;
    && |es| == 2 * k && k <= Max(0, maxAttempts)
    && (forall i :: 0 <= i < k ==> es[2 * i].status == Pending && es[2 * i].attempt == i + 1)
    && (forall i :: 0 <= i < k ==> es[2 * i + 1].status != Pending && es[2 * i + 1].attempt == i + 1)
    && (forall i :: 0 <= i < k - 1 ==> es[2 * i + 1].status == Retrying)
    && (s.succeeded <==> k > 0 && es[2 * k - 1].status == Succeeded)
    && (s.terminalFailure <==> k > 0 && es[2 * k - 1].status == Failed)
    && (k > 0 && es[2 * k - 1].status == Retrying ==> k < maxAttempts)
  }

  ghost predicate GrammarOf(b: Book, k: Key, maxAttempts: int) {
    Grammar(EntriesOf(b.log, k), StateOf(b, k), maxAttempts)
  }

  ghost predicate Grammatical(b: Book, maxAttempts: int) {
    forall k :: GrammarOf(b, k, maxAttempts)
  }

  // One undisturbed turn of dispatch: reserve, send, record.
  function Attempt(b: Book, k: Key, r: SendResult, maxAttempts: int): Book {
    if !Reservable(b, k, maxAttempts) then Reserve(b, k, maxAttempts)
    else
      var attempt := StateOf(b, k).attempts + 1;
      Record(Reserve(b, k, maxAttempts), k, attempt, StatusFor(r, attempt, maxAttempts))
  }

  lemma GrammarExtends(es: seq<LogEntry>, s: DispatchState, k: Key, r: SendResult, maxAttempts: int)
    requires Grammar(es, s, maxAttempts) && !s.succeeded && !s.terminalFailure && s.attempts < maxAttempts
    ensures var n := s.attempts + 1;
            var status := StatusFor(r, n, maxAttempts);
            Grammar(es + [LogEntry(k, Pending, n)] + [LogEntry(k, status, n)],
                    DispatchState(n, status == Succeeded, status == Failed), maxAttempts)
  {
    var n := s.attempts;
    var more := es + [LogEntry(k, Pending, n + 1)] + [LogEntry(k, StatusFor(r, n + 1, maxAttempts), n + 1)];
    assert more[..2 * n] == es;
    forall i | 0 <= i < n ensures more[2 * i + 1].status == Retrying {
      assert more[2 * i + 1] == es[2 * i + 1];
    }
    forall i | 0 <= i < n + 1 ensures more[2 * i].status == Pending && more[2 * i].attempt == i + 1 {
      if i < n { assert more[2 * i] == es[2 * i]; }
    }
    forall i | 0 <= i < n + 1 ensures more[2 * i + 1].status != Pending && more[2 * i + 1].attempt == i + 1 {
      if i < n { assert more[2 * i + 1] == es[2 * i + 1]; }
    }
  }

  // What an attempt does to one key's entries and state.
  lemma AttemptEffect(b: Book, k: Key, r: SendResult, maxAttempts: int, k2: Key)
    ensures var b' := Attempt(b, k, r, maxAttempts);
            var n := StateOf(b, k).attempts + 1;
            var status := StatusFor(r, n, maxAttempts);
            if k2 == k && Reservable(b, k, maxAttempts) then
              && EntriesOf(b'.log, k2) == EntriesOf(b.log, k2) + [LogEntry(k, Pending, n)] + [LogEntry(k, status, n)]
              && StateOf(b', k2) == DispatchState(n, status == Succeeded, status == Failed)
            else EntriesOf(b'.log, k2) == EntriesOf(b.log, k2) && StateOf(b', k2) == StateOf(b, k2)
  {
    hide StatusFor, EntriesOf, Reserve, Record, StateOf;
    var n := StateOf(b, k).attempts + 1;
    ReserveEffect(b, k, maxAttempts, k2);
    RecordEffect(Reserve(b, k, maxAttempts), k, n, StatusFor(r, n, maxAttempts), k2);
  }

  lemma ReserveEffect(b: Book, k: Key, maxAttempts: int, k2: Key)
    ensures var b' := Reserve(b, k, maxAttempts);
            var n := StateOf(b, k).attempts + 1;
            if k2 == k && Reservable(b, k, maxAttempts) then
              && EntriesOf(b'.log, k2) == EntriesOf(b.log, k2) + [LogEntry(k, Pending, n)]
              && StateOf(b', k2) == DispatchState(n, false, false)
            else EntriesOf(b'.log, k2) == EntriesOf(b.log, k2) && StateOf(b', k2) == StateOf(b, k2)
  {
    hide EntriesOf;
    EntriesAppend(b.log, LogEntry(k, Pending, StateOf(b, k).attempts + 1), k2);
  }

  lemma RecordEffect(b: Book, k: Key, attempt: nat, status: Status, k2: Key)
    ensures var b', s := Record(b, k, attempt, status), StateOf(b, k);
            if k2 == k then
              && EntriesOf(b'.log, k2) == EntriesOf(b.log, k2) + [LogEntry(k, status, attempt)]
              && StateOf(b', k2) == s.(succeeded := s.succeeded || status == Succeeded,
                                       terminalFailure := s.terminalFailure || status == Failed)
            else EntriesOf(b'.log, k2) == EntriesOf(b.log, k2) && StateOf(b', k2) == StateOf(b, k2)
  {
    EntriesAppend(b.log, LogEntry(k, status, attempt), k2);
  }

  lemma AttemptKeepsGrammar(b: Book, k: Key, r: SendResult, maxAttempts: int)
    requires Grammatical(b, maxAttempts)
    ensures Grammatical(Attempt(b, k, r, maxAttempts), maxAttempts)
  {
    hide Grammar, Attempt, StatusFor;
    forall k2 ensures GrammarOf(Attempt(b, k, r, maxAttempts), k2, maxAttempts) {
      assert GrammarOf(b, k2, maxAttempts);
      AttemptEffect(b, k, r, maxAttempts, k2);
      if k2 == k && Reservable(b, k, maxAttempts) {
        GrammarExtends(EntriesOf(b.log, k), StateOf(b, k), k, r, maxAttempts);
      }
    }
  }

  predicate Terminal(s: Status) { s == Succeeded || s == Failed }

  // What grammar means for one key: only the last entry can be terminal, so nothing follows a terminal result and
  // at most one attempt succeeds.
  lemma GrammarMeans(es: seq<LogEntry>, s: DispatchState, maxAttempts: int)
    requires Grammar(es, s, maxAttempts)
    ensures forall i :: 0 <= i < |es| - 1 ==> !Terminal(es[i].status)
    ensures Successes(es) == if s.succeeded then 1 else 0
  {
    forall i | 0 <= i < |es| - 1 ensures !Terminal(es[i].status) {
      assert i == 2 * (i / 2) || i == 2 * (i / 2) + 1;
      if i == 2 * (i / 2) {
        assert es[2 * (i / 2)].status == Pending;
      } else {
        assert es[2 * (i / 2) + 1].status == Retrying;
      }
    }
    if es != [] { NoSuccesses(es[..|es| - 1]); }
  }

  lemma {:induction false} NoSuccesses(es: seq<LogEntry>)
    requires forall i :: 0 <= i < |es| ==> !Terminal(es[i].status)
    ensures Successes(es) == 0
  {
    if es != [] { NoSuccesses(es[..|es| - 1]); }
  }

  // The log only grows, by entries of this key, and by one success when this attempt succeeds.
  lemma AttemptLogs(b: Book, k: Key, r: SendResult, maxAttempts: int)
    ensures var b' := Attempt(b, k, r, maxAttempts);
            && b.log <= b'.log && (forall e :: e in b'.log[|b.log|..] ==> e.key == k)
            && Successes(b'.log) == Successes(b.log) + if Reservable(b, k, maxAttempts) && r.success then 1 else 0
  {
    var n := StateOf(b, k).attempts + 1;
    var pending, result := LogEntry(k, Pending, n), LogEntry(k, StatusFor(r, n, maxAttempts), n);
    SuccessesAppend(b.log, pending);
    SuccessesAppend(b.log + [pending], result);
  }

  // The same in the book's own fields: a settled or exhausted alert is left alone; any other is reserved and recorded,
  // as succeeded, as to be retried if that was asked for while attempts remain, and as failed otherwise.
  ghost predicate AttemptsAs(b: Book, b': Book, k: Key, r: SendResult, maxAttempts: int) {
    var s := if k in b.states then b.states[k] else DispatchState(0, false, false);
    && k in b'.states && (forall k2 :: k2 != k ==> (k2 in b'.states <==> k2 in b.states))
    && (forall k2 :: k2 != k && k2 in b.states ==> b'.states[k2] == b.states[k2])
    && (if s.succeeded || s.terminalFailure || maxAttempts <= s.attempts then b'.log == b.log && b'.states[k] == s
        else
          var n := s.attempts + 1;
          && |b'.log| == |b.log| + 2 && b.log <= b'.log
          && b'.log[|b.log|] == LogEntry(k, Pending, n)
          && b'.log[|b.log| + 1].key == k && b'.log[|b.log| + 1].attempt == n
          && b'.states[k].attempts == n
          && (match b'.log[|b.log| + 1].status
              case Succeeded => r.success && b'.states[k].succeeded && !b'.states[k].terminalFailure
              case Retrying =>
                !r.success && r.retryable && n < maxAttempts && !b'.states[k].succeeded && !b'.states[k].terminalFailure
              case Failed =>
                && !r.success && (!r.retryable || n == maxAttempts)
                && !b'.states[k].succeeded && b'.states[k].terminalFailure
              case Pending => false))
  }

  lemma AttemptMeans(b: Book, k: Key, r: SendResult, maxAttempts: int)
    ensures AttemptsAs(b, Attempt(b, k, r, maxAttempts), k, r, maxAttempts)
  {
  }

  method DispatchOne(repository: DispatchRepository, k: Key, result: SendResult, maxAttempts: int)
    returns (succeeded: bool)
    modifies repository
    ensures repository.View() == Attempt(old(repository.View()), k, result, maxAttempts)
    ensures succeeded == (Reservable(old(repository.View()), k, maxAttempts) && result.success)
    ensures AttemptsAs(old(repository.View()), repository.View(), k, result, maxAttempts)
  {
    AttemptMeans(repository.View(), k, result, maxAttempts);
    hide AttemptsAs;
    var attempt := repository.ReserveDispatch(k, maxAttempts);
    if attempt == None { return false; }
    var status := StatusFor(result, attempt.value, maxAttempts);
    repository.RecordDispatchResult(k, attempt.value, status);
    succeeded := status == Succeeded;
  }

  // The attempts of one call: every requested alert that exists, in the order of the request.
  function Dispatched(b: Book, alerts: set<Id>, alertIds: seq<Id>, channel: Channel, results: seq<SendResult>,
                      maxAttempts: int): Book
    requires |results| == |alertIds|
  {
    if alertIds == [] then b
    else
      var n := |alertIds| - 1;
      var before := Dispatched(b, alerts, alertIds[..n], channel, results[..n], maxAttempts);
      if alertIds[n] in alerts then Attempt(before, Key(alertIds[n], channel), results[n], maxAttempts) else before
  }

  lemma DispatchedNext(b: Book, alerts: set<Id>, alertIds: seq<Id>, channel: Channel, results: seq<SendResult>,
                       maxAttempts: int, i: nat)
    requires |results| == |alertIds| && i < |alertIds|
    ensures var before := Dispatched(b, alerts, alertIds[..i], channel, results[..i], maxAttempts);
            Dispatched(b, alerts, alertIds[..i + 1], channel, results[..i + 1], maxAttempts) ==
            if alertIds[i] in alerts then Attempt(before, Key(alertIds[i], channel), results[i], maxAttempts)
            else before
  {
    assert alertIds[..i + 1][..i] == alertIds[..i] && results[..i + 1][..i] == results[..i];
  }

  // A retried alert that is not settled yet does get its attempt: k calls for one alert make min(k, maxAttempts)
  // attempts while the sender only asks for retries.
  lemma {:induction false} RetriesUseEveryAttempt(b: Book, k: Key, n: nat, maxAttempts: int)
    requires StateOf(b, k) == NEW_STATE && maxAttempts >= 1
    ensures StateOf(Retried(b, k, n, maxAttempts), k) ==
            DispatchState(Min(n, maxAttempts), false, n >= maxAttempts)
  {
    if n > 0 {
      RetriesUseEveryAttempt(b, k, n - 1, maxAttempts);
      AttemptEffect(Retried(b, k, n - 1, maxAttempts), k, NO_DISPATCHER, maxAttempts, k);
    }
  }

  function Retried(b: Book, k: Key, n: nat, maxAttempts: int): Book {
    if n == 0 then b else Attempt(Retried(b, k, n - 1, maxAttempts), k, NO_DISPATCHER, maxAttempts)
  }

  lemma {:induction false} DispatchedKeepsGrammar(b: Book, alerts: set<Id>, alertIds: seq<Id>, channel: Channel,
                                                  results: seq<SendResult>, maxAttempts: int)
    requires |results| == |alertIds| && Grammatical(b, maxAttempts)
    ensures Grammatical(Dispatched(b, alerts, alertIds, channel, results, maxAttempts), maxAttempts)
  {
    hide Grammatical, Attempt;
    if alertIds != [] {
      var n := |alertIds| - 1;
      DispatchedKeepsGrammar(b, alerts, alertIds[..n], channel, results[..n], maxAttempts);
      var before := Dispatched(b, alerts, alertIds[..n], channel, results[..n], maxAttempts);
      AttemptKeepsGrammar(before, Key(alertIds[n], channel), results[n], maxAttempts);
    }
  }

  // ---------- whole runs of one sender ----------

  // One call of dispatch: the requested alerts, each with what sending it would bring.
  datatype Call = Call(alerts: set<Id>, channel: Channel, alertIds: seq<Id>, results: seq<SendResult>)

  ghost predicate Answered(calls: seq<Call>) {
    forall i :: 0 <= i < |calls| ==> |calls[i].results| == |calls[i].alertIds|
  }

  ghost function AfterCalls(calls: seq<Call>, maxAttempts: int): Book
    requires Answered(calls)
  {
    if calls == [] then NEW_BOOK
    else
      var c := calls[|calls| - 1];
      Dispatched(AfterCalls(calls[..|calls| - 1], maxAttempts), c.alerts, c.alertIds, c.channel, c.results, maxAttempts)
  }

  // Before the first attempt nothing is logged.
  lemma NothingIsGrammatical(maxAttempts: int)
    ensures Grammatical(NEW_BOOK, maxAttempts)
  {
    forall k ensures GrammarOf(NEW_BOOK, k, maxAttempts) {}
  }

  lemma {:induction false} CallsKeepGrammar(calls: seq<Call>, maxAttempts: int)
    requires Answered(calls)
    ensures Grammatical(AfterCalls(calls, maxAttempts), maxAttempts)
  {
    hide Grammatical, Dispatched;
    if calls == [] {
      NothingIsGrammatical(maxAttempts);
    } else {
      var c, init := calls[|calls| - 1], calls[..|calls| - 1];
      CallsKeepGrammar(init, maxAttempts);
      DispatchedKeepsGrammar(AfterCalls(init, maxAttempts), c.alerts, c.alertIds, c.channel, c.results, maxAttempts);
    }
  }

  // After any calls of dispatch on a new repository each key's log follows the grammar: nothing follows a terminal
  // result, and at most one attempt succeeds.
  lemma SequentialDispatchFollowsGrammar(calls: seq<Call>, maxAttempts: int, k: Key)
    requires Answered(calls)
    ensures var b := AfterCalls(calls, maxAttempts);
            var es := EntriesOf(b.log, k);
            && Grammar(es, StateOf(b, k), maxAttempts)
            && (forall i :: 0 <= i < |es| - 1 ==> !Terminal(es[i].status))
            && Successes(es) == if StateOf(b, k).succeeded then 1 else 0
  {
    var b := AfterCalls(calls, maxAttempts);
    CallsKeepGrammar(calls, maxAttempts);
    assert GrammarOf(b, k, maxAttempts);
    hide Grammar;
    GrammarMeans(EntriesOf(b.log, k), StateOf(b, k), maxAttempts);
  }

  // results[i] is what sending alertIds[i] would bring; a dispatcher may answer anything.
  method DispatchAlerts(repository: DispatchRepository, alerts: set<Id>, alertIds: seq<Id>, channel: Channel,
                        results: seq<SendResult>, maxAttempts: int)
    returns (dispatched: nat)
    requires |results| == |alertIds|
    modifies repository
    ensures old(Grammatical(repository.View(), maxAttempts)) ==> Grammatical(repository.View(), maxAttempts)
    ensures repository.View() == Dispatched(old(repository.View()), alerts, alertIds, channel, results, maxAttempts)
    ensures dispatched == Successes(repository.log) - Successes(old(repository.log))
    ensures Appended(old(repository.log), repository.log, alerts, alertIds, channel)
  {
    dispatched := 0;
    ghost var before, book := repository.log, repository.View();
    for i := 0 to |alertIds|
      invariant repository.View() == Dispatched(book, alerts, alertIds[..i], channel, results[..i], maxAttempts)
      invariant Grammatical(book, maxAttempts) ==> Grammatical(repository.View(), maxAttempts)
      invariant dispatched == Successes(repository.log) - Successes(before)
      invariant Appended(before, repository.log, alerts, alertIds, channel)
    {
      hide Grammatical, Successes, Attempt, Dispatched;
      DispatchedNext(book, alerts, alertIds, channel, results, maxAttempts, i);
      if alertIds[i] in alerts {
        var k := Key(alertIds[i], channel);
        ghost var b := repository.View();
        if Grammatical(b, maxAttempts) { AttemptKeepsGrammar(b, k, results[i], maxAttempts); }
        AttemptLogs(b, k, results[i], maxAttempts);
        var succeeded := DispatchOne(repository, k, results[i], maxAttempts);
        AppendedOn(before, b.log, repository.log, alerts, alertIds, channel, k);
        if succeeded { dispatched := dispatched + 1; }
      }
    }
    assert alertIds[..|alertIds|] == alertIds && results[..|results|] == results;
  }

  // The log has grown, only by entries about the requested alerts that exist, on this channel.
  ghost predicate Appended(before: seq<LogEntry>, after: seq<LogEntry>, alerts: set<Id>, alertIds: seq<Id>,
                           channel: Channel) {
    && before <= after
    && forall i :: |before| <= i < |after| ==>
         after[i].key.channel == channel && after[i].key.alertId in alertIds && after[i].key.alertId in alerts
  }

  lemma AppendedOn(before: seq<LogEntry>, middle: seq<LogEntry>, after: seq<LogEntry>, alerts: set<Id>,
                   alertIds: seq<Id>, channel: Channel, k: Key)
    requires Appended(before, middle, alerts, alertIds, channel) && middle <= after
    requires forall e :: e in after[|middle|..] ==> e.key == k
    requires k.channel == channel && k.alertId in alertIds && k.alertId in alerts
    ensures Appended(before, after, alerts, alertIds, channel)
  {
    forall i | |before| <= i < |after|
      ensures after[i].key.channel == channel && after[i].key.alertId in alertIds && after[i].key.alertId in alerts
    {
      if i < |middle| { assert after[i] == middle[i]; } else { assert after[i] in after[|middle|..]; }
    }
  }

  // ---------- interleaved senders ----------

  datatype Step = ReserveStep(key: Key) | RecordStep(key: Key, attempt: nat, status: Status)

  function Next(b: Book, e: Step, maxAttempts: int): Book {
    match e
    case ReserveStep(k) => Reserve(b, k, maxAttempts)
    case RecordStep(k, attempt, status) => Record(b, k, attempt, status)
  }

  function Steps(b: Book, es: seq<Step>, maxAttempts: int): Book {
    if es == [] then b else Next(Steps(b, es[..|es| - 1], maxAttempts), es[|es| - 1], maxAttempts)
  }

  function Reservations(es: seq<LogEntry>): nat {
    if es == [] then 0 else Reservations(es[..|es| - 1]) + if es[|es| - 1].status == Pending then 1 else 0
  }

  // At most maxAttempts reservations, none after a recorded terminal result, whoever interleaves.
  ghost predicate Bounded(es: seq<LogEntry>, s: DispatchState, maxAttempts: int) {
    && Reservations(es) == s.attempts <= Max(0, maxAttempts)
    && (s.succeeded || s.terminalFailure <==> exists i :: 0 <= i < |es| && Terminal(es[i].status))
    && (forall i, j :: 0 <= i < j < |es| && Terminal(es[i].status) ==> es[j].status != Pending)
  }

  lemma BoundedExtends(es: seq<LogEntry>, s: DispatchState, e: LogEntry, s': DispatchState, maxAttempts: int)
    requires Bounded(es, s, maxAttempts)
    requires e.status == Pending ==>
               s' == s.(attempts := s.attempts + 1) && !s.succeeded && !s.terminalFailure && s.attempts < maxAttempts
    requires e.status != Pending ==> s' == s.(succeeded := s.succeeded || e.status == Succeeded,
                                              terminalFailure := s.terminalFailure || e.status == Failed)
    ensures Bounded(es + [e], s', maxAttempts)
  {
    var more := es + [e];
    assert more[..|es|] == es;
    if exists i :: 0 <= i < |es| && Terminal(es[i].status) {
      var i :| 0 <= i < |es| && Terminal(es[i].status);
      assert Terminal(more[i].status);
    }
    if Terminal(e.status) { assert Terminal(more[|es|].status); }
  }

  // The entry a step appends, if it appends one.
  function EntryOf(b: Book, e: Step): LogEntry {
    match e
    case ReserveStep(k) => LogEntry(k, Pending, StateOf(b, k).attempts + 1)
    case RecordStep(k, attempt, status) => LogEntry(k, status, attempt)
  }

  predicate Appends(b: Book, e: Step, maxAttempts: int) { e.RecordStep? || Reservable(b, e.key, maxAttempts) }

  lemma NextEffect(b: Book, e: Step, maxAttempts: int, k: Key)
    ensures var b' := Next(b, e, maxAttempts);
            if e.key == k && Appends(b, e, maxAttempts)
              then EntriesOf(b'.log, k) == EntriesOf(b.log, k) + [EntryOf(b, e)]
            else EntriesOf(b'.log, k) == EntriesOf(b.log, k) && StateOf(b', k) == StateOf(b, k)
  {
    EntriesAppend(b.log, EntryOf(b, e), k);
  }

  lemma NextKeepsBounded(b: Book, e: Step, maxAttempts: int, k: Key)
    requires Bounded(EntriesOf(b.log, k), StateOf(b, k), maxAttempts) && (e.RecordStep? ==> e.status != Pending)
    ensures var b' := Next(b, e, maxAttempts); Bounded(EntriesOf(b'.log, k), StateOf(b', k), maxAttempts)
  {
    hide Bounded, EntriesOf;
    NextEffect(b, e, maxAttempts, k);
    if e.key == k && Appends(b, e, maxAttempts) {
      BoundedExtends(EntriesOf(b.log, k), StateOf(b, k), EntryOf(b, e), StateOf(Next(b, e, maxAttempts), k),
                     maxAttempts);
    }
  }

  lemma {:induction false} StepsStayBounded(es: seq<Step>, maxAttempts: int, k: Key)
    requires forall i :: 0 <= i < |es| && es[i].RecordStep? ==> es[i].status != Pending
    ensures var b := Steps(NEW_BOOK, es, maxAttempts);
            Bounded(EntriesOf(b.log, k), StateOf(b, k), maxAttempts)
  {
    hide Bounded, Next;
    if es == [] {
      NothingIsBounded(maxAttempts);
    } else {
      StepsStayBounded(es[..|es| - 1], maxAttempts, k);
      NextKeepsBounded(Steps(NEW_BOOK, es[..|es| - 1], maxAttempts), es[|es| - 1], maxAttempts, k);
    }
  }

  lemma NothingIsBounded(maxAttempts: int)
    ensures Bounded([], NEW_STATE, maxAttempts)
  {
  }

  // ---------- legal interleavings ----------

  // The attempt was reserved and has no result yet.
  ghost predicate Open(log: seq<LogEntry>, k: Key, attempt: nat) {
    LogEntry(k, Pending, attempt) in log && forall s :: s != Pending ==> LogEntry(k, s, attempt) !in log
  }

  // A sender records a result only for an attempt of its own that is open.
  ghost predicate LegalStep(b: Book, e: Step) {
    e.RecordStep? ==> e.status != Pending && Open(b.log, e.key, e.attempt)
  }

  ghost predicate Legal(es: seq<Step>, maxAttempts: int) {
    es == [] ||
      (Legal(es[..|es| - 1], maxAttempts) && LegalStep(Steps(NEW_BOOK, es[..|es| - 1], maxAttempts), es[|es| - 1]))
  }

  function SuccessesOf(es: seq<Step>, maxAttempts: int, k: Key): nat {
    Successes(EntriesOf(Steps(NEW_BOOK, es, maxAttempts).log, k))
  }

  // The attempts with a result.
  ghost function Recorded(es: seq<LogEntry>): set<nat> {
    set i | 0 <= i < |es| && es[i].status != Pending :: es[i].attempt
  }

  function Results(es: seq<LogEntry>): nat {
    if es == [] then 0 else Results(es[..|es| - 1]) + if es[|es| - 1].status == Pending then 0 else 1
  }

  // Attempts are numbered from 1, and each has at most one result.
  ghost predicate Matched(es: seq<LogEntry>, s: DispatchState) {
    && Results(es) == |Recorded(es)|
    && forall i :: 0 <= i < |es| ==> 1 <= es[i].attempt <= s.attempts
  }

  lemma RecordedAppend(es: seq<LogEntry>, e: LogEntry)
    ensures Recorded(es + [e]) == Recorded(es) + if e.status == Pending then {} else {e.attempt}
    ensures Results(es + [e]) == Results(es) + if e.status == Pending then 0 else 1
  {
    assert (es + [e])[..|es|] == es;
    var more := es + [e];
    forall a ensures a in Recorded(more) <==> a in Recorded(es) || (e.status != Pending && a == e.attempt) {
      if a in Recorded(es) {
        var i :| 0 <= i < |es| && es[i].status != Pending && es[i].attempt == a;
        assert more[i].status != Pending && more[i].attempt == a;
      }
      if e.status != Pending && a == e.attempt { assert more[|es|].attempt == a; }
    }
  }

  lemma {:induction false} EntriesAreLogged(log: seq<LogEntry>, k: Key, e: LogEntry)
    ensures e in EntriesOf(log, k) <==> e in log && e.key == k
  {
    if log != [] {
      EntriesAreLogged(log[..|log| - 1], k, e);
      assert log == log[..|log| - 1] + [log[|log| - 1]];
    }
  }

  lemma OpenIsUnrecorded(log: seq<LogEntry>, k: Key, attempt: nat)
    requires Open(log, k, attempt)
    ensures attempt !in Recorded(EntriesOf(log, k)) && LogEntry(k, Pending, attempt) in EntriesOf(log, k)
  {
    var es := EntriesOf(log, k);
    EntriesAreLogged(log, k, LogEntry(k, Pending, attempt));
    forall i | 0 <= i < |es| && es[i].status != Pending ensures es[i].attempt != attempt {
      EntriesAreLogged(log, k, es[i]);
      assert es[i] == LogEntry(k, es[i].status, es[i].attempt);
    }
  }

  lemma MatchedExtends(es: seq<LogEntry>, s: DispatchState, e: LogEntry, s': DispatchState)
    requires Matched(es, s) && s.attempts <= s'.attempts && 1 <= e.attempt <= s'.attempts
    requires e.status != Pending ==> e.attempt !in Recorded(es)
    ensures Matched(es + [e], s')
  {
    hide Recorded, Results;
    RecordedAppend(es, e);
  }

  lemma NextKeepsMatched(b: Book, e: Step, maxAttempts: int, k: Key)
    requires Matched(EntriesOf(b.log, k), StateOf(b, k)) && LegalStep(b, e)
    ensures var b' := Next(b, e, maxAttempts); Matched(EntriesOf(b'.log, k), StateOf(b', k))
  {
    hide EntriesOf, Recorded, Results, Open;
    NextEffect(b, e, maxAttempts, k);
    if e.key == k && Appends(b, e, maxAttempts) {
      var es := EntriesOf(b.log, k);
      if e.RecordStep? {
        OpenIsUnrecorded(b.log, k, e.attempt);
        var i :| 0 <= i < |es| && es[i] == LogEntry(k, Pending, e.attempt);
      }
      MatchedExtends(es, StateOf(b, k), EntryOf(b, e), StateOf(Next(b, e, maxAttempts), k));
    }
  }

  lemma {:induction false} LegalStepsStayMatched(es: seq<Step>, maxAttempts: int, k: Key)
    requires Legal(es, maxAttempts)
    ensures var b := Steps(NEW_BOOK, es, maxAttempts); Matched(EntriesOf(b.log, k), StateOf(b, k))
    ensures forall i :: 0 <= i < |es| && es[i].RecordStep? ==> es[i].status != Pending
  {
    hide Matched, Next;
    if es == [] {
      NothingIsMatched();
    } else {
      var init := es[..|es| - 1];
      LegalStepsStayMatched(init, maxAttempts, k);
      NextKeepsMatched(Steps(NEW_BOOK, init, maxAttempts), es[|es| - 1], maxAttempts, k);
      assert es == init + [es[|es| - 1]];
    }
  }

  lemma NothingIsMatched()
    ensures Matched([], NEW_STATE)
  {
    assert Recorded([]) == {};
  }

  lemma {:induction false} SuccessesAreResults(es: seq<LogEntry>)
    ensures Successes(es) <= Results(es)
  {
    if es != [] { SuccessesAreResults(es[..|es| - 1]); }
  }

  lemma {:induction false} AtMostAttempts(attempts: set<nat>, n: nat)
    requires forall a :: a in attempts ==> 1 <= a <= n
    ensures |attempts| <= n
  {
    if n == 0 {
      assert attempts == {};
    } else {
      AtMostAttempts(attempts - {n}, n - 1);
    }
  }

  // Whoever interleaves, a key never succeeds more often than attempts are allowed.
  lemma SuccessesAreBounded(es: seq<Step>, maxAttempts: int, k: Key)
    requires Legal(es, maxAttempts)
    ensures SuccessesOf(es, maxAttempts, k) <= Max(0, maxAttempts)
  {
    var b := Steps(NEW_BOOK, es, maxAttempts);
    var log := EntriesOf(b.log, k);
    LegalStepsStayMatched(es, maxAttempts, k);
    StepsStayBounded(es, maxAttempts, k);
    SuccessesAreResults(log);
    AtMostAttempts(Recorded(log), StateOf(b, k).attempts);
  }

  // n senders reserve one after the other; then the first r of them report success.
  function Race(k: Key, n: nat, r: nat): seq<Step> {
    seq(n, _ => ReserveStep(k)) + seq(r, i requires 0 <= i < r => RecordStep(k, i + 1, Succeeded))
  }

  // n attempts have been reserved, and the first r of them have succeeded.
  predicate RaceEntry(e: LogEntry, k: Key, n: nat, r: nat) {
    && e.key == k && 1 <= e.attempt
    && ((e.status == Pending && e.attempt <= n) || (e.status == Succeeded && e.attempt <= r))
  }

  ghost predicate Raced(b: Book, k: Key, n: nat, r: nat) {
    (forall e :: e in b.log <==> RaceEntry(e, k, n, r)) && Successes(EntriesOf(b.log, k)) == r
  }

  lemma RaceReserve(b: Book, k: Key, n: nat, maxAttempts: int)
    requires Raced(b, k, n, 0) && StateOf(b, k) == DispatchState(n, false, false) && n < maxAttempts
    ensures var b' := Reserve(b, k, maxAttempts);
            Raced(b', k, n + 1, 0) && StateOf(b', k) == DispatchState(n + 1, false, false)
  {
    hide EntriesOf, Successes;
    EntriesAppend(b.log, LogEntry(k, Pending, n + 1), k);
    SuccessesAppend(EntriesOf(b.log, k), LogEntry(k, Pending, n + 1));
  }

  lemma RaceRecord(b: Book, k: Key, n: nat, r: nat)
    requires Raced(b, k, n, r) && r < n
    ensures Open(b.log, k, r + 1) && Raced(Record(b, k, r + 1, Succeeded), k, n, r + 1)
  {
    hide EntriesOf, Successes;
    RaceOpen(b, k, n, r, r + 1);
    EntriesAppend(b.log, LogEntry(k, Succeeded, r + 1), k);
    SuccessesAppend(EntriesOf(b.log, k), LogEntry(k, Succeeded, r + 1));
  }

  lemma RaceOpen(b: Book, k: Key, n: nat, r: nat, next: nat)
    requires Raced(b, k, n, r) && r < next <= n
    ensures Open(b.log, k, next)
  {
    hide EntriesOf, Successes;
    forall s | s != Pending ensures LogEntry(k, s, next) !in b.log {
      assert !RaceEntry(LogEntry(k, s, next), k, n, r);
    }
    assert RaceEntry(LogEntry(k, Pending, next), k, n, r);
  }

  lemma LegalAppend(es: seq<Step>, e: Step, maxAttempts: int)
    requires Legal(es, maxAttempts) && LegalStep(Steps(NEW_BOOK, es, maxAttempts), e)
    ensures Legal(es + [e], maxAttempts)
    ensures Steps(NEW_BOOK, es + [e], maxAttempts) == Next(Steps(NEW_BOOK, es, maxAttempts), e, maxAttempts)
  {
    hide LegalStep, Next;
    assert (es + [e])[..|es|] == es;
  }

  lemma {:induction false} RaceReserves(k: Key, n: nat, maxAttempts: int)
    requires n <= maxAttempts
    ensures var b := Steps(NEW_BOOK, Race(k, n, 0), maxAttempts);
            Legal(Race(k, n, 0), maxAttempts) && Raced(b, k, n, 0) && StateOf(b, k) == DispatchState(n, false, false)
  {
    hide Raced, Legal, Steps, StateOf;
    if n == 0 {
      NobodyRaces(k, maxAttempts);
    } else {
      var init := Race(k, n - 1, 0);
      RaceReserves(k, n - 1, maxAttempts);
      assert Race(k, n, 0) == init + [ReserveStep(k)];
      LegalAppend(init, ReserveStep(k), maxAttempts);
      RaceReserve(Steps(NEW_BOOK, init, maxAttempts), k, n - 1, maxAttempts);
    }
  }

  lemma NobodyRaces(k: Key, maxAttempts: int)
    ensures var b := Steps(NEW_BOOK, Race(k, 0, 0), maxAttempts);
            Legal(Race(k, 0, 0), maxAttempts) && Raced(b, k, 0, 0) && StateOf(b, k) == NEW_STATE
  {
    assert Race(k, 0, 0) == [];
  }

  lemma {:induction false} RaceSucceeds(k: Key, n: nat, r: nat, maxAttempts: int)
    requires r <= n <= maxAttempts
    ensures Legal(Race(k, n, r), maxAttempts) && Raced(Steps(NEW_BOOK, Race(k, n, r), maxAttempts), k, n, r)
  {
    hide Raced, Legal, Steps, Open;
    if r == 0 {
      RaceReserves(k, n, maxAttempts);
    } else {
      var init := Race(k, n, r - 1);
      RaceSucceeds(k, n, r - 1, maxAttempts);
      assert Race(k, n, r) == init + [RecordStep(k, r, Succeeded)];
      RaceRecord(Steps(NEW_BOOK, init, maxAttempts), k, n, r - 1);
      LegalAppend(init, RecordStep(k, r, Succeeded), maxAttempts);
    }
  }

  // Two senders that reserve before either records can both succeed as soon as two attempts are allowed; in general
  // as many as there are attempts.
  lemma TwoSuccessesWhenInterleaved(k: Key, maxAttempts: int)
    ensures maxAttempts >= 2 ==> exists es :: Legal(es, maxAttempts) && SuccessesOf(es, maxAttempts, k) == 2
    ensures exists es :: Legal(es, maxAttempts) && SuccessesOf(es, maxAttempts, k) == Max(0, maxAttempts)
  {
    if maxAttempts >= 2 {
      RaceSucceeds(k, 2, 2, maxAttempts);
      assert SuccessesOf(Race(k, 2, 2), maxAttempts, k) == 2;
    }
    RaceSucceeds(k, Max(0, maxAttempts), Max(0, maxAttempts), Max(0, maxAttempts));
    if maxAttempts < 0 {
      assert Legal([], maxAttempts) && SuccessesOf([], maxAttempts, k) == 0;
    } else {
      assert SuccessesOf(Race(k, maxAttempts, maxAttempts), maxAttempts, k) == maxAttempts;
    }
  }

  // So at most one success per key is safe from interleaving exactly when at most one attempt is allowed.
  lemma AtMostOneSuccessIff(maxAttempts: int)
    ensures (forall es, k :: Legal(es, maxAttempts) ==> SuccessesOf(es, maxAttempts, k) <= 1) <==> maxAttempts <= 1
  {
    forall es, k | Legal(es, maxAttempts) ensures SuccessesOf(es, maxAttempts, k) <= Max(0, maxAttempts) {
      SuccessesAreBounded(es, maxAttempts, k);
    }
    if maxAttempts >= 2 { TwoSuccessesWhenInterleaved(Key(0, Local), maxAttempts); }
  }
}
