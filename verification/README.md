# Verified model of the home-search services

This project models the services whose correctness rests on state kept over time, and proves what
they promise for every input, every call and every run. One module follows one part of a service.

**Acquisition** (`RateLimiter`, `PolicyGate`, `TaskQueue`, `Acquisition`, `TaskRuns`, `TaskAccounts`,
`Draining`). The rate limiter, queue, task repository, scheduler and worker are classes. Each of
their methods is proved equal to a function on a value, the `World`, which also keeps histories no
service keeps: grants per domain, queue entries and handler calls with the policy status of that
moment. Runs interleave submissions, policy changes, waiting, popping, and the start and the finish
of task processing in any order, with any handler outcome and any time passing between the clock
readings of one acquire. Proved over all runs: no task is lost or duplicated, the rate bound (and
that no smaller bound holds), attempt accounting, and compliance. A sequential driver ends with
every task settled, whatever the handlers answer and however policies change meanwhile, if the
readings that decide an acquire differ in finitely many turns only.

**Dedupe** (`Clustering`, `Blocking`, `Canonical`, `ChangeLog`). Union-find with path compression, the
blocking index, scoring and thresholds, the merge of facts into canonical values, and the change
log. Clusters are the connected components of the merge decisions, whatever the order of input.
Scoring only the pairs with a common key loses no merge, and changes no cluster, exactly when the
auto-merge threshold lies above what two listings can score without a common address: 0.4 for the
default configuration. This is for listings that all have an address, weights that give the address
something and nothing less than 0, and no overrides.

**Alerts** (`Alerts`, `Dispatch`). The batched matcher, and dispatching with bounded attempts over an
append-only log: over all calls of one sender, and over all legal interleavings of several.

**Commute** (`CacheKeys`, `GeoCommute`). The cache key and its text, the transit graph that is rebuilt
when another feed becomes active, and the route cache in front of the router. For every run of
requests, feed registrations and profile changes the cached service answers as the router alone
would, exactly when routing gives one answer to requests that share a key text and a router. Routing
goes by the request and by the graph version, or the profile and tiles, of the router; that the tokens
of the cache tell these apart is part of the proof. The key keeps neither the coordinates nor the exact
departure time, so this is a condition on routing.

**Provenance** (`Provenance`). The evidence validator, the fact store's own checks, and the
materializing of candidates: the store never raises after validation and holds only supported
facts; validation itself raises exactly where stated below.

**Diversity** (`Diversity`). The greedy filter under three caps.

`Prelude` and `Sorting` hold what the others share: `Sorting` has the sort that stands for the
source's stable sorts.

Where a promise turned out not to hold in general, the code is kept as it is and the exact condition
is proved:

- A deferral names the exact next time unless the budget is below 1 while windows have a length and a slot is free
  (`RateLimiter.NextAvailableExactIff`).
- One acquire reads the clock when it starts, again to ask whether the domain is free, and a third time to compute
  when it will be. It is granted exactly when the last two readings coincide at a time that is granted
  (`RateLimiter.DecidesIff`), so at or after the announced time it can still be refused
  (`RateLimiter.ReadyYetRefused`), and a worker whose readings always differ never starts anything
  (`Draining.DriftingTurnStartsNothing`). As the first reading is the one remembered, two grants can be closer
  than the minimum delay by what the earlier acquire drifted; the exact condition is in `RateLimiter.FullDelayIff`.
- A domain without a slot, or with windows but no budget for them, never grants anything
  (`RateLimiter.StarvedGrantsNothing`), and its tasks wait for ever (`Draining.StarvedNeverSettles`).
- A retry enters the queue without a policy check. Finishing a running task can queue something
  forbidden exactly if it is a Firecrawl task with an attempt left whose source may not be crawled
  (`TaskAccounts.RetryAllowedIff`); over runs everything queued was allowed exactly when no such retry
  was taken (`TaskAccounts.EntriesAllowedIff`). A run that takes one is in
  `TaskAccounts.RetryAfterWithdrawal`.
- Blocking loses merges at thresholds up to the share of the weight that is not the address's, 0.4 by default
  (`Blocking.LosslessIff`, `Blocking.KeepsClustersIff`, `Blocking.DefaultBound`). Listings without an address have no key at
  all, so with them every allowed threshold loses merges (`Blocking.LosslessWithoutAddressesIff`).
- Validation raises, and materializing with it, on a list or object where an image's name should be,
  on an infinite number where a coordinate should be, and on a digest to compare with a text that
  cannot be encoded (`Provenance.MaterializeCandidates`, with the inputs in
  `Provenance.UnhashableImageRaises`, `InfiniteNumberRaises` and `UnencodableSpanRaises`).
- With a change store that already holds a needed transition, applying the reported changes does not
  give the new values (`ChangeLog.PatchIff`).
- With an alert limit below 1 the matcher never gets past its first match (`Alerts.RunProgress`).
- Senders that reserve before any of them records can all succeed, so at most one success per key is
  safe from interleaving exactly when at most one attempt is allowed (`Dispatch.AtMostOneSuccessIff`).
- Two keys with a separator inside a part can share one text (`CacheKeys.ParseUndoesToKeyIff`,
  `GeoCommute.CacheRefinesKeyedRoutingIff`), and two requests of one cell and time bucket always do
  (`GeoCommute.CacheRefinesEveryRoutingIff`). A graph version that is empty has the token of one named "unknown"
  (`GeoCommute.TokensTell`).
- A graph builder that gives two builds one token brings back routes of the earlier one
  (`GeoCommute.HitsAreCurrentIff`). For a builder that looks only at the feed this means naming a feed
  while another can be built (`GeoCommute.FeedBuilderIff`); the default builder never does.

Besides being equal to the functions on which the laws over runs rest, the methods state what they do in
the fields of their arguments and results alone, and so do the lemmas whose names end in `Means` about
those functions.

Common reading: ids are natural numbers that stand for strings with their order; times are whole
microseconds; scores, trust and confidence are reals; deterministic ids, hashes, routers, builders,
handlers and dispatchers are parameters. A call reads the clock once, but for acquire, whose readings
are told apart, and a handler, which may take time.

`dafny verify dfyconfig.toml` checks the project.

## Model

| member | source | states |
|---|---|---|
| RateLimiter.DomainRateLimiter.RefreshWindow | services/acquisition/rate_limiter.py:61-70 | the domain's ledger takes one peek: a new window exactly when none is open or the open one has lasted its full length; no grant, no other domain changes |
| RateLimiter.DomainRateLimiter.NextAvailableTime | services/acquisition/rate_limiter.py:72-91 | returns the earliest time that the spacing, the cooldown and the budget or the end of the window allow, and only refreshes the window |
| RateLimiter.DomainRateLimiter.CanAcquire | services/acquisition/rate_limiter.py:93-99 | true exactly when a slot is free, its two clock readings coincide, and spacing, cooldown and budget all allow that moment; a full domain's window is not refreshed |
| RateLimiter.DomainRateLimiter.Charge | services/acquisition/rate_limiter.py:105-109 | the updates of a granted acquire, with its first reading |
| RateLimiter.DomainRateLimiter.Acquire | services/acquisition/rate_limiter.py:101-110 | with up to four ordered clock readings: grants exactly when a slot is free, the second and third reading coincide, and spacing, cooldown and budget allow them; takes slot and budget and remembers the first reading, otherwise changes at most the window and returns the time computed from the fourth |
| RateLimiter.DomainRateLimiter.Release | services/acquisition/rate_limiter.py:112-117 | frees a slot, never below zero; a success resets the error count and the cooldown, anything else leaves them |
| RateLimiter.DomainRateLimiter.RegisterError | services/acquisition/rate_limiter.py:119-127 | one error more; the k-th error of a streak sets the cooldown to now plus the base delay doubled k - 1 times or the maximum, whichever is smaller; the first one to the base delay or the maximum |
| RateLimiter.AvailableIsEarliest | services/acquisition/rate_limiter.py:72-91 | the time announced is the one earliest time that spacing, cooldown, budget and window allow |
| RateLimiter.DecidesIff | services/acquisition/rate_limiter.py:93-99 | for ordered readings can_acquire holds iff the two readings coincide at a time that is granted |
| RateLimiter.DecidesPlainly | services/acquisition/rate_limiter.py:93-99 | a request is granted exactly when a slot is free, the readings coincide, and spacing, cooldown and budget allow it at once |
| RateLimiter.ReadyYetRefused | services/acquisition/rate_limiter.py:93-104 | an acquire whose two readings differ is refused, whatever was announced |
| RateLimiter.PeekThenAcquire | services/acquisition/rate_limiter.py:93-110 | asking at the same time before acquiring, once or twice, changes neither the answer nor the result |
| RateLimiter.AcquireSteps | services/acquisition/rate_limiter.py:93-110 | the limiter calls that acquire makes add up to one step of the domain's ledger |
| RateLimiter.NextAvailableExactIff | services/acquisition/rate_limiter.py:72-110 | with no other activity, a later acquire succeeds iff a slot is free, its two deciding readings coincide, and the announced time has come; this holds for all later readings iff the budget is at least 1 (or windows are empty, or the domain is full) |
| RateLimiter.ApplyKeepsLedgerInv | services/acquisition/rate_limiter.py:61-127 | every call keeps the tie between counters, windows and the grants made |
| RateLimiter.RunKeepsLedgerInv | services/acquisition/rate_limiter.py:61-127 | so does every run with a clock that never goes back |
| RateLimiter.RateBound | services/acquisition/rate_limiter.py:61-110 | over any run, with any time between the readings of one call, any half-open interval as long as the window holds at most 2 * budget deciding readings, and each grant comes at least the minimum delay after the first reading of the one before |
| RateLimiter.FullDelayIff | services/acquisition/rate_limiter.py:79-110 | when acquires drift by at most so much, all runs keep the full delay between deciding readings iff nothing drifts, there is no delay, nothing is ever granted, or a budget of 1 keeps the least delay anyway |
| RateLimiter.StarvedGrantsNothing | services/acquisition/rate_limiter.py:84-99 | without a slot, or with windows but no budget, no run grants anything |
| RateLimiter.RateBoundIsTight | services/acquisition/rate_limiter.py:61-110 | for every budget and every window of at least 2 the bound is reached: a window opened by a mere question can end just after its grants |
| RateLimiter.DelayDoublesUpToMax | services/acquisition/rate_limiter.py:123-126 | each delay of a streak is the smaller of twice the previous one and the maximum |
| RateLimiter.DelayGrows | services/acquisition/rate_limiter.py:123-126 | delays never shrink within a streak |
| RateLimiter.DelayIsBackoff | services/acquisition/rate_limiter.py:123-126 | the k-th delay of a streak is the base doubled k - 1 times, or the maximum if that is smaller, and no other number is |
| RateLimiter.BackoffLaw | services/acquisition/rate_limiter.py:112-127 | since the last success, whatever else happened, the cooldown is the last error's time plus the delay for the number of errors |
| RateLimiter.StreakBackoff | services/acquisition/rate_limiter.py:112-127 | in a run, the k-th error since the last success sets the cooldown to its own time plus the base doubled k - 1 times, or plus the maximum |
| RateLimiter.CooldownHolds | services/acquisition/rate_limiter.py:72-127 | until a success the cooldown never moves back and nothing is granted before it |
| RateLimiter.RunKeepsStreakInv | services/acquisition/rate_limiter.py:112-127 | in every run a cooldown is set only within a streak and at most one delay ahead |
| TaskQueue.InMemoryQueueAdapter.Enqueue | services/acquisition/queue.py:29-35 | the queue gains exactly this item and stays in order of time and task id; returns the task id |
| TaskQueue.InMemoryQueueAdapter.PopDue | services/acquisition/queue.py:40-49 | returns the due items and keeps the others, both in order; a queue in order is cut in two at now |
| TaskQueue.PopCutsQueue | services/acquisition/queue.py:40-49 | on a sorted queue the due items and the rest are the queue cut in two at now |
| TaskQueue.EnqueueIsTheSortedList | services/acquisition/queue.py:29-35 | the queue after an enqueue is the one sorted list with one item more |
| TaskQueue.InsertGains | services/acquisition/queue.py:29-35 | an insertion adds exactly one item and keeps the order |
| Acquisition.TaskRepository.UpdateStatus | services/acquisition/repository.py:25-36 | sets the status and appends the transition from the old one |
| Acquisition.TaskRepository.IncrementAttempt | services/acquisition/repository.py:38-41 | counts one attempt more and returns it |
| Acquisition.TaskScheduler.DenyTask | services/acquisition/scheduler.py:47-59 | stores the task as denied, without a transition, and logs it |
| Acquisition.TaskScheduler.SubmitTask | services/acquisition/scheduler.py:79-97 | accepted exactly when well formed and let through by its source's policy; then stored as queued and entered into the queue at the earliest time that is no earlier than it asks for and that its domain allows; otherwise stored as denied and logged with the reason, and the limiter is not asked |
| Acquisition.SubmitMeans | services/acquisition/scheduler.py:79-97 | the same of the submission of runs, by fields alone |
| Acquisition.TaskWorker.EnqueueDelayed | services/acquisition/worker.py:49-52 | the task is queued again at the given time, with its transition |
| Acquisition.TaskWorker.LogOutcome | services/acquisition/worker.py:54-72 | appends one record with the task's current attempt |
| Acquisition.TaskWorker.MarkStarted | services/acquisition/worker.py:97-100 | the task runs, its attempt is counted, and only a Firecrawl task reaches the handler |
| Acquisition.TaskWorker.Conclude | services/acquisition/worker.py:100-171 | every way a handler can end: success, or a task without a handler, succeeds the task, clears the streak and logs it; an invalid request or any other exception fails it and leaves the streak; a rate limit or network error counts an error, sets the cooldown, and queues the task exactly at its end while attempts are left, else fails it; each frees one slot and logs one record with its own error class |
| Acquisition.FinishMeans | services/acquisition/worker.py:100-171 | the same of the finish of runs, by the handler's way to end and fields alone |
| Acquisition.TaskWorker.BackOff | services/acquisition/worker.py:113-156 | a rate limit or network error registers the error, frees the slot and retries at the cooldown while attempts remain |
| Acquisition.TaskWorker.ProcessTask | services/acquisition/worker.py:80-171 | one call begins the task - denied and logged when its policy forbids it, started when a slot is free, the readings coincide and spacing, cooldown and budget allow it, deferred otherwise - and when it started ends it as the handler says; an unknown id changes nothing |
| Acquisition.BeginMeans | services/acquisition/worker.py:80-98 | a task starts exactly when its policy permits it and the limiter's state allows it now; a start takes a slot and an attempt and calls the handler only for Firecrawl tasks |
| Acquisition.ProcessMeans | services/acquisition/worker.py:80-171 | begin and finish by fields alone for the whole call of a run |
| TaskRuns.SubmitKeepsPlaced | services/acquisition/scheduler.py:79-97 | a submission keeps: queue and hand hold each queued task once and nothing else |
| TaskRuns.BeginPlaces | services/acquisition/worker.py:80-98 | so does starting, deferring or refusing a popped task |
| TaskRuns.FinishKeepsPlaced | services/acquisition/worker.py:100-171 | so does finishing |
| TaskRuns.BeginKeepsCounted | services/acquisition/worker.py:92-98 | a domain's inflight count stays the number of its running tasks and within its cap |
| TaskRuns.FinishKeepsCounted | services/acquisition/worker.py:100-171 | every finish frees the slot of its own task |
| TaskAccounts.NextKeepsInv | services/acquisition/worker.py:80-171 | every step of every interleaving keeps the whole invariant: places, ledgers, counts, accounts and compliance |
| TaskAccounts.RunKeepsInv | services/acquisition/worker.py:80-171 | every run keeps it |
| TaskAccounts.NothingLostOrDuplicated | services/acquisition/worker.py:80-171 | in every reachable state a task is in queue or hand once iff it is queued, no id is queued twice, and inflight equals the running tasks of the domain and never exceeds the cap |
| TaskAccounts.RateBoundOverRuns | services/acquisition/worker.py:92-98 | the rate bound and the spacing hold in every run of the whole system, with any time between the readings of each acquire |
| TaskAccounts.AttemptsAreAccounted | services/acquisition/worker.py:97-171 | attempt equals the transitions into running, finished attempts are logged 1, 2, ... up to at most the maximum, a success is logged last and exactly for succeeded tasks, and the transitions form a legal path from queued |
| TaskAccounts.CompliantRuns | services/acquisition/worker.py:74-95 | every handler call happens while the source may be crawled, and whatever enters the queue, other than a retry, is allowed at that moment |
| TaskAccounts.UndisturbedRetriesAreAllowed | services/acquisition/worker.py:80-171 | when no policy changes during a call, its retry is allowed too |
| TaskAccounts.RetryAllowedIff | services/acquisition/worker.py:100-167 | for a running task, whatever the handler does only allowed entries are queued iff the task is no Firecrawl task, has no attempt left, or its source may be crawled |
| TaskAccounts.EntriesAllowedIff | services/acquisition/worker.py:80-171 | in every reachable state everything that entered the queue was allowed at that moment iff no step of the run retried a task while its source could not be crawled |
| TaskAccounts.RetryAfterWithdrawal | services/acquisition/worker.py:113-142 | a reachable state whose queue was entered by a retry that was forbidden at that moment |
| Draining.DeferralClearsHold | services/acquisition/worker.py:92-95 | a deferral moves an item past every bound that held its domain, also when time passes before it is computed, and makes no other item held |
| Draining.TurnDecreases | services/acquisition/worker.py:80-171 | each processed task whose deciding readings coincide lowers the measure: attempts left, then items scheduled before their domain is ready |
| Draining.DriftingTurnStartsNothing | services/acquisition/worker.py:92-95 | a turn whose deciding readings differ starts nothing and defers an allowed task again |
| Draining.StarvedNeverSettles | services/acquisition/worker.py:80-98 | an accepted task of a domain without a slot, or with windows but no budget, stays queued and unattempted in every run that keeps allowing it |
| Draining.ReachableIsSequential | services/acquisition/worker.py:80-171 | the driver may start after any run in which nothing runs and nothing is in hand |
| Draining.Drain | services/acquisition/worker.py:80-171 | with cap and budget at least 1, a sequential driver terminates, whatever handlers and policies do, with empty queue and every task succeeded, failed or denied, if deciding readings differ in finitely many turns |
| Clustering.UnionFind.Find | services/dedupe/service.py:70-74 | returns the root and changes no root |
| Clustering.UnionFind.Union | services/dedupe/service.py:76-83 | the two roots become the smaller one; every other root stays |
| Clustering.UnionFind.Groups | services/dedupe/service.py:85-92 | every item is listed once, in ascending order, under its root |
| Clustering.CompressionKeepsRoots | services/dedupe/service.py:70-74 | path compression changes no root |
| Clustering.LinkingMovesRoot | services/dedupe/service.py:76-83 | hanging the larger root under the smaller moves exactly its own members |
| Clustering.RootsTellLinks | services/dedupe/service.py:267-271 | two ids have one root iff a chain of merges links them |
| Clustering.RootIsSmallestMember | services/dedupe/service.py:79-83 | the root is the smallest member of its component, and nothing else is |
| Clustering.MakeClusters | services/dedupe/service.py:267-279 | the clusters partition the ids, two ids share one iff linked by auto-merge decisions; members and clusters are in order |
| Clustering.ClusteringUnique | services/dedupe/service.py:267-279 | the clusters depend only on the set of ids and the set of merges, not on any order of input |
| Clustering.MoreMergesCoarsen | services/dedupe/service.py:267-279 | with more merges every cluster lies inside a coarser one |
| Blocking.Index | services/dedupe/service.py:132-140 | each key lists exactly the listings that have it, ascending |
| Blocking.PairUp | services/dedupe/service.py:142-153 | each pair is recorded under exactly the keys that list both |
| Blocking.Block | services/dedupe/service.py:132-170 | the candidates are exactly the pairs that share a key, each once and in order, with exactly the keys shared: those are the pairs with a common address, or with an address and a unit each that read alike once joined |
| Blocking.KeysMeetIff | services/dedupe/service.py:117-125 | two listings share a key exactly when they have a common address, or an address and a unit each that read alike once joined, as they can with a separator inside |
| Blocking.BlockingMeans | services/dedupe/service.py:132-170 | a pair is a candidate exactly when its listings are alike in their own fields |
| Blocking.Decide | services/dedupe/service.py:210-265 | each candidate pair gets the weighted share of what its own two listings have in common - an address, a unit, a price within the tolerance - over what both of them state, or its override, and is merged, reviewed or separated exactly by which thresholds that score reaches |
| Blocking.ScoreMeans | services/dedupe/service.py:172-244 | the score by the listings' own fields, weights and overrides |
| Blocking.DecisionMeans | services/dedupe/service.py:246-265 | merged iff the score reaches auto_merge, reviewed iff it reaches only review, separated iff it reaches neither |
| Blocking.Run | services/dedupe/service.py:281-308 | the clusters are the components of the candidates whose score reaches auto_merge; the review queue holds exactly the candidates whose score reaches review and not auto_merge, in order |
| Blocking.CandidateMergesMean | services/dedupe/service.py:281-285 | the merges are exactly the candidates whose score reaches auto_merge |
| Blocking.ReviewsMean | services/dedupe/service.py:286-290 | the review queue is exactly the candidates whose score reaches review and not auto_merge |
| Blocking.NoSharedKeyScoresLow | services/dedupe/service.py:172-208 | two addressed listings without a common key score at most the share of the weight that is not the address's |
| Blocking.DefaultBound | services/dedupe/service.py:40-49 | with the default weights that share is 0.4, or a third when a negative tolerance keeps prices from matching |
| Blocking.LosslessAboveBound | services/dedupe/service.py:132-208 | above the bound the merges among candidates are the merges among all pairs, for addressed listings |
| Blocking.LostMerge | services/dedupe/service.py:132-251 | at every threshold up to the bound two addressed listings merge among all pairs and not among candidates |
| Blocking.LostWithoutAddresses | services/dedupe/service.py:117-125 | at every threshold up to 1 (0 if nothing but addresses counts) two listings without an address merge among all pairs and not among candidates |
| Blocking.LosslessIff | services/dedupe/service.py:132-251 | for weights above 0 for the address and at least 0 otherwise, without overrides, no list of addressed listings loses a merge iff auto_merge lies above the bound |
| Blocking.LosslessWithoutAddressesIff | services/dedupe/service.py:100-251 | for such weights, when listings may lack an address, no list loses a merge iff auto_merge > 1, which the configuration forbids, or > 0 if nothing but addresses counts |
| Blocking.KeepsClustersIff | services/dedupe/service.py:267-285 | for such weights, candidate clusters equal all-pairs clusters for all addressed listings iff auto_merge lies above the bound |
| Blocking.BlockingKeepsClusters | services/dedupe/service.py:281-285 | above the bound the clusters of a run are those of scoring every pair, for addressed listings |
| Blocking.LowerThresholdCoarsens | services/dedupe/service.py:246-279 | a lower threshold only coarsens the clusters |
| Canonical.WinnerIff | services/dedupe/service.py:369-372 | the winner is the greatest candidate by trust, time, confidence and fact id, and nothing else is |
| Canonical.RunnerUpIsSecond | services/dedupe/service.py:371-373 | every other candidate ranks at most as high as the runner-up |
| Canonical.WinnerIgnoresOrder | services/dedupe/service.py:369-372 | the winner does not depend on the order of the candidates |
| Canonical.MergedWinner | services/dedupe/service.py:369-372 | the winner of two lists of candidates together is the better of their winners |
| Canonical.MergedCluster | services/dedupe/service.py:349-383 | for every field, a cluster merged from two, in any order of members, has the canonical field of the better of their winners, but for the reason |
| Canonical.ReasonNamesFirstDifference | services/dedupe/service.py:325-334 | the reason names the first component in which the winner strictly beats every rival tied before it |
| Canonical.Collect | services/dedupe/service.py:349-367 | the candidates of a field are the eligible, evidence-backed facts of the members, in order |
| Canonical.AllCandidatesIff | services/dedupe/service.py:349-367 | a candidate is exactly what one eligible fact of one member gives under the trust of that member's source |
| Canonical.Canonicalize | services/dedupe/service.py:347-383 | exactly the listing fields appear for which some member has a fact with value, confidence and evidence; each with the fact that is best by source trust, then time, confidence and id, and its reason |
| Canonical.CanonicalMeans | services/dedupe/service.py:349-383 | the canonical value of a field comes from a contributing fact that no contributing fact ranks above |
| ChangeLog.ListingChangeStore.Record | services/dedupe/service.py:56-60 | a change is stored iff its id is new; nothing stored is replaced |
| ChangeLog.Diff | services/dedupe/service.py:385-415 | reports exactly the differing fields whose change was not in the store, each once, with the listing, old and new value and the time the new value was observed (the old one's if the field is gone), in order of path; the store grows by exactly those |
| ChangeLog.ReportsMean | services/dedupe/service.py:385-415 | what a reported change holds, by fields alone |
| ChangeLog.PathLeMeans | services/dedupe/service.py:415-415 | the order of the report is that of the paths, character by character |
| ChangeLog.PatchIff | services/dedupe/service.py:385-415 | applying the reported changes to the old values gives the new ones iff no needed transition was already stored |
| ChangeLog.RepeatReportsNothing | services/dedupe/service.py:385-415 | the same call with the store it left behind reports nothing and leaves that store as it is |
| Alerts.AlertRepository.Add | services/alerts/repository.py:68-92 | one alert per spec and change; a repeated request returns the first alert and changes nothing |
| Alerts.Run | services/alerts/service.py:41-119 | takes the changes by time and id and examines the first ones up to the one that fills the limit; logs each with the first of these tests that it fails: recent enough, ids present, listing known, constraints passed; adds an alert exactly for those that fail none, unless they have one, and returns the number of new alerts |
| Alerts.ClassifyMeans | services/alerts/service.py:48-114 | the verdict of a change is the first test it fails, in that order, and it matches exactly when it fails none |
| Alerts.RunMeans | services/alerts/service.py:41-119 | after a run there are the alerts from before and one for each examined change that fails no test, a log entry with the test each failed, and the run stopped early only at a match with the limit reached |
| Alerts.RunProgress | services/alerts/service.py:41-119 | a run that finds the first m matches done does the next ones up to the limit, and returns how many; with a limit below 1 it never passes the first match |
| Alerts.BatchesMakeExactProgress | services/alerts/service.py:41-119 | after k consecutive runs with limit L >= 1 the alerts are those of the first min(k*L, n) matches, and run k returns what it added |
| Alerts.Batches | services/alerts/service.py:41-119 | running the matcher k times on a repository without alerts for the spec alerts exactly the first min(k*L, n) changes, by time and id, that are recent, name themselves and a known listing, and whose listing passes; each run returns what it added |
| Alerts.FirstAreAlerted | services/alerts/service.py:41-119 | when the alerts are those of the first matches, they are for wanted changes, as many as the batches allow, and no wanted change is passed over for a later one |
| Dispatch.DispatchRepository.ReserveDispatch | services/alerts/repository.py:122-156 | reserves the next attempt iff none succeeded or failed for good and attempts remain, and logs it as pending |
| Dispatch.DispatchRepository.RecordDispatchResult | services/alerts/repository.py:158-198 | appends the result and remembers a terminal one |
| Dispatch.DispatchOne | services/alerts/service.py:121-183 | one alert: left alone when settled or out of attempts; otherwise one reservation and one result, succeeded as the send did, to be retried when that was asked for and attempts are left, failed for good else |
| Dispatch.AttemptMeans | services/alerts/service.py:155-183 | the same of the attempt of runs, by log and flags alone |
| Dispatch.AttemptKeepsGrammar | services/alerts/service.py:121-153 | an undisturbed attempt keeps every key's log in the form (pending 1, result 1), (pending 2, result 2), ... with retries before the last result and at most max_attempts pairs |
| Dispatch.GrammarMeans | services/alerts/repository.py:122-198 | in such a log nothing follows a terminal result and at most one attempt succeeds |
| Dispatch.RetriesUseEveryAttempt | services/alerts/service.py:121-183 | while sends only ask for retries, n calls make min(n, max_attempts) attempts and the last allowed one fails for good |
| Dispatch.DispatchAlerts | services/alerts/service.py:121-153 | one attempt for every requested alert that exists, in order, and nothing else; returns the number of succeeded entries appended; keeps the grammar |
| Dispatch.StepsStayBounded | services/alerts/repository.py:122-198 | under any interleaving of reserve and record there are at most max_attempts reservations per key and none after a recorded terminal result |
| Dispatch.SequentialDispatchFollowsGrammar | services/alerts/service.py:121-153 | after any calls of dispatch on a new repository every key's log follows the grammar, nothing follows a terminal result, and at most one attempt succeeds |
| Dispatch.SuccessesAreBounded | services/alerts/repository.py:122-198 | under every legal interleaving, where a result is recorded once for a reserved attempt, a key succeeds at most max_attempts times |
| Dispatch.TwoSuccessesWhenInterleaved | services/alerts/repository.py:122-198 | a legal interleaving reaches max_attempts successes, and one reaches two as soon as two attempts are allowed |
| Dispatch.AtMostOneSuccessIff | services/alerts/repository.py:122-198 | every legal interleaving has at most one success per key iff max_attempts <= 1 |
| Diversity.ApplyDiversityCaps | services/ranking/service.py:334-362 | the result takes the items in order and keeps each exactly when fewer kept listings than its caps share its building, its neighborhood and its source, or when it is not in the repository |
| Diversity.GreedyIsTaken | services/ranking/service.py:344-362 | the greedy selection of the laws below is taken so, by the listings' own fields |
| Diversity.FitsIff | services/ranking/service.py:352-357 | an item is admissible exactly when building, neighborhood and source are each below their own cap among those kept |
| Diversity.CapsHold | services/ranking/service.py:352-357 | no building, neighborhood or source is kept more often than its cap |
| Diversity.KeepsCaps | services/ranking/service.py:352-357 | the same with each of the three fields and its own cap |
| Diversity.GreedyIff | services/ranking/service.py:344-362 | a selection that keeps an item exactly when no cap of it is saturated by those kept before is the result, so it is unique and each dropped item has a saturated cap |
| Diversity.GreedyExists | services/ranking/service.py:344-362 | the result is such an order-preserving selection |
| Diversity.Idempotent | services/ranking/service.py:334-362 | filtering twice is filtering once |
| Diversity.GreedyOfPrefix | services/ranking/service.py:334-362 | filtering a prefix gives a prefix of the result |
| Diversity.CutComesFromPrefix | services/ranking/service.py:73-75 | cutting the result to a limit gives the result for a prefix |
| Provenance.ValidateEvidenceRef | services/common/evidence.py:46-179 | no issue exactly when the evidence is of this snapshot and either a non-empty span of the named content with the claimed excerpt and digest, or a non-empty rectangle inside the named image; raises exactly on an unhashable image name, an infinite number met before an unreadable one, or a digest of unencodable text |
| Provenance.SelectMeans | services/common/evidence.py:22-29 | which text of the snapshot a source_format names: its own, and the plain text without one |
| Provenance.AsIntMeans | services/common/evidence.py:85-88 | what a value reads as: numbers as they are, texts as parsed, decimals cut toward zero; only an infinite number overflows |
| Provenance.InTextMeans | services/common/evidence.py:73-106 | a span lies in the content exactly when it can be cut out of it |
| Provenance.InImageMeans | services/common/evidence.py:127-170 | a region lies in an image exactly when it has a pixel and every pixel of it is one of the image's |
| Provenance.SupportsMeans | services/common/evidence.py:46-179 | the snapshot supports a reference exactly when what it claims holds, by the locator's own entries |
| Provenance.RaiseMeans | services/common/evidence.py:46-179 | each exception by the locator's own entries and the order of reading |
| Provenance.ValidateSpan | services/common/evidence.py:73-126 | raises exactly when an offset is infinite before one that cannot be read, or the span to digest cannot be encoded; otherwise no issue iff the span lies in the selected content and the excerpt and hash, where given, are those of the span; each issue exactly for its own cause |
| Provenance.ValidateRegion | services/common/evidence.py:127-170 | raises exactly when the image name is a list or object, or a coordinate of a known image is infinite before one that cannot be read; otherwise no issue iff the rectangle is non-empty and inside a known image; each issue exactly for its own cause |
| Provenance.FactStore.AddEvidence | services/common/facts.py:92-118 | stores the record iff its locator is well formed: readable offsets from 0 in order, or x, y and a readable positive size; otherwise changes nothing |
| Provenance.FactStore.AddFact | services/common/facts.py:120-167 | stores the fact and one link to each piece of evidence, ranked from 1, iff a value comes with evidence and confidence and all evidence exists; otherwise changes nothing |
| Provenance.SupportedIsAccepted | services/common/facts.py:54-71 | the validator implies the store's own checks |
| Provenance.MaterializeCandidates | services/extraction/service.py:214-314 | raises iff a candidate with a value and a confidence holds a reference whose validation raises; otherwise stores exactly the admitted candidates with their evidence, and reports nothing iff every candidate with a value has a confidence and evidence, all of which holds |
| Provenance.AdmittedMeans | services/extraction/service.py:227-253 | a candidate is admitted iff it has a value, a confidence and evidence, and all of the evidence holds |
| Provenance.UnhashableImageRaises | services/common/evidence.py:128-131 | a list or object as image_ref raises |
| Provenance.InfiniteNumberRaises | services/common/evidence.py:85-88 | an infinite start_char, or x of a known image, raises |
| Provenance.UnencodableSpanRaises | services/common/evidence.py:116-119 | a text_hash beside a span that cannot be encoded raises |
| Provenance.SupportedNeverRaises | services/common/evidence.py:46-179 | evidence that the snapshot supports never raises |
| Provenance.StoredEvidenceIsSound | services/extraction/service.py:255-279 | every stored piece of evidence is supported by the snapshot |
| Provenance.StoredFactsAreSound | services/extraction/service.py:292-312 | every stored fact has a value, a confidence and a link, and every link leads from a stored fact to stored evidence |
| Provenance.StoredFactsIff | services/extraction/service.py:292-312 | a fact is stored iff it comes from an admitted candidate, under the id of its field, value and extractor, and holds the fields of such a candidate |
| Provenance.StoredLinksIff | services/common/facts.py:157-166 | the links are exactly those between an admitted candidate's fact and each piece of its own evidence, ranked in order |
| Provenance.StoredEvidenceIsFound | services/extraction/service.py:255-279 | an admitted candidate's evidence is found under its id, with every field unchanged |
| CacheKeys.Parse | services/geo_commute/cache.py:26-42 | the loop computes the parse: four fields in order and a known mode, or the matching error |
| CacheKeys.KeyText | services/geo_commute/cache.py:18-24 | the text of a key, written out |
| CacheKeys.ParseUndoesToKeyIff | services/geo_commute/cache.py:18-42 | parsing undoes writing iff no part holds a separator |
| CacheKeys.ToKeyUndoesParse | services/geo_commute/cache.py:18-42 | writing undoes every parse that succeeds |
| CacheKeys.ToKeyInjective | services/geo_commute/cache.py:18-24 | keys without separators have texts of their own |
| CacheKeys.SeparatorsCollide | services/geo_commute/cache.py:18-24 | with separators two keys can share one text |
| GeoCommute.OtpGraphManager.EnsureGraph | services/geo_commute/compliance.py:131-140 | rebuilds iff there is no graph or another feed is active, with the builder's name or the next counted one; without a feed it fails and changes nothing |
| GeoCommute.OtpGraphManager.RebuildGraph | services/geo_commute/compliance.py:142-157 | takes the builder's name or a fresh counted one, for any builder that answers from its calls so far; a failed build changes nothing but those calls |
| GeoCommute.EnsuredMeans | services/geo_commute/compliance.py:131-157 | the same of the graphs of runs, by fields alone |
| GeoCommute.RoutingEngine.PrepareFor | services/geo_commute/service.py:120-133 | only managed transit ensures its graph and reports the feed; the token names graph version or road profile |
| GeoCommute.TokensTell | services/geo_commute/providers.py:226-299 | among the graph versions, and the profiles and tiles, that one router can have, tokens are equal exactly when these are, or when both are versions named "" or "unknown" |
| GeoCommute.CommuteCache.Get | services/geo_commute/cache.py:94-100 | the stored route, iff it was stored under the same token |
| GeoCommute.CommuteCache.Set | services/geo_commute/cache.py:102-107 | replaces the entry of the key; what the route was computed on is kept for the proofs only |
| GeoCommute.GeoCommuteService.Commute | services/geo_commute/service.py:197-219 | answers under the written-out text of the key: by the stored route, or by routing the whole request on the graph version, or profile and tiles, in use; refuses a request that names another feed than the active one; stores routes and no failures |
| GeoCommute.ServeMeans | services/geo_commute/service.py:197-219 | the same of the requests of runs, by fields alone |
| GeoCommute.CommuteRefinesDirect | services/geo_commute/service.py:197-219 | routing goes by the request and the graph version, or profile and tiles, and never sees a token; where it agrees on requests that share a text and a router, one request through a sound cache answers as the router alone, leaves the router the same and the cache sound |
| GeoCommute.CacheRefinesRoutingIff | services/geo_commute/service.py:197-219 | over all runs of a set of requests, and all routers, builders, feeds and profiles, the cached answers are the uncached ones iff on every graph version, and on all profiles and tiles, routing gives one route to requests that share a text and a router, and on versions named "" or "unknown" the same one |
| GeoCommute.CacheRefinesEveryRoutingIff | services/geo_commute/service.py:198-204 | the cache is safe for every routing that treats the versions "" and "unknown" alike, of coordinates and exact time too, iff no two different requests share a text and a router |
| GeoCommute.CacheRefinesKeyedRoutingIff | services/geo_commute/service.py:198-204 | it is safe for every routing that depends only on the key and the token iff different keys have different texts |
| GeoCommute.PlainKeysAreSeparate | services/geo_commute/cache.py:18-24 | with key parts free of separators the cache refines every routing that depends only on the key and the token |
| GeoCommute.RoadHitsBelongToTheProfile | services/geo_commute/service.py:128-132 | in every run each walk, bike and drive hit was stored under the profile and tiles in use |
| GeoCommute.ValueUndoesDec | services/geo_commute/compliance.py:147-149 | counted graph names differ, because their digits read back as the count |
| GeoCommute.HitsAreCurrentIff | services/geo_commute/compliance.py:131-157 | in every run each transit hit was stored since the current graph build iff the builder, whatever feeds follow each other, never gives two builds one token |
| GeoCommute.FeedBuilderIff | services/geo_commute/compliance.py:131-157 | for a builder that looks only at the feed this holds iff it never names a feed while another one can be built |
| GeoCommute.NumberingBuilderIsCurrent | services/geo_commute/compliance.py:142-150 | a builder that names every build afresh is safe |
| GeoCommute.DefaultBuilderIsCurrent | services/geo_commute/compliance.py:147-149 | the default builder is safe |

## Left out

- Acquisition: `submit_raw` and `submit_tasks`, which only parse and loop; the RQ queue; payload checks are one verdict bit per task.
- Acquisition: policy ids, audit parameters and record timestamps, which are only carried along; log and queue job ids.
- Acquisition: tasks and domain states are values in maps of the repository and the limiter, so two names for one task object are not captured.
- Acquisition: the readings of one acquire are told apart; other calls read once, and the timestamps a worker writes after an acquire are its last reading. Times are whole microseconds, and a domain's policy is fixed during a run.
- Acquisition: floating-point overflow of the doubled backoff after about a thousand errors in a row.
- Acquisition: runs submit an id once, with attempt 0 and at least one attempt allowed, and process a task only after popping it; the source checks neither.
- TaskAccounts.CompliantRuns: does not say that retries are allowed, because they need not be; TaskAccounts.RetryAllowedIff says when they are.
- Blocking.Block: requires distinct listing ids, because with equal ids a pair can join a listing to itself and the last listing wins in the lookup.
- Blocking.Index: requires distinct listing ids, as Blocking.Block does.
- Blocking.Decide: requires distinct listing ids, as Blocking.Block does, and the candidate pairs of Blocking.Block.
- Blocking.Run: requires distinct listing ids, as Blocking.Block does, and an injective cluster id function.
- Blocking: text normalization of addresses and units, number parsing of prices, feature values, per-key pair counts, evidence hashes and model versions; the keys of a listing are a set.
- Clustering.MakeClusters: assumes that the cluster id function, a digest of the members, is injective.
- Canonical.WinnerIff: assumes distinct fact ids among the candidates; with equal ids and equal ranks Python's sort keeps the last.
- ChangeLog.Diff: assumes that the change id function, a digest of its inputs, is injective; fields are compared as JSON texts, so values that Python finds equal but writes differently (1 and 1.0) count as different; the second and third sort keys are immaterial because no field is reported twice.
- Alerts.Run: the match flags written to the log, and a missing search spec; hard constraints are one verdict per listing.
- Alerts.BatchesMakeExactProgress: assumes distinct change ids, which the change store guarantees.
- Dispatch: payload hashes, dispatch ids, times and error texts of log entries; the idempotency key is the pair it is written from.
- GeoCommute: geocoding, the OSRM fallback, tiles that are missing, observability events, and file checks when a feed is registered.
- GeoCommute: routing is a function of the whole request and the graph version, or profile and tiles, so a route that changes with time alone is not modelled; normalization of identifiers and the text of a time bucket are parameters.
- GeoCommute.HitsAreCurrentIff: times are counted in completed graph builds, and runs start with a new graph manager and an empty cache.
- Provenance: entity ids and types, observation ids and timestamps; finite floats are reals, and `int()` of a text is given with the text.
- Provenance: evidence ids given by the caller; a fact id is a function of field, value and extractor.
- Diversity: scores and explanations; ranking, hard constraints, retrieval, similarity and the utility score.
- HTTP applications, user interface, extraction patterns, search-spec parsing, snapshots, metrics and fixtures: plumbing or field checks that would add only easy members.
