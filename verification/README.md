# QueryFlux: admission control, caches and configuration

A Dafny model of the parts of QueryFlux, a query proxy in front of several engines, in which state
changes under concurrency or in which one representation must agree with another.

**Admission** (`Admission*.dfy`, `CircuitBreaker.dfy`, `BreakerRuns.dfy`, `Strategy.dfy`). A query
sent to a cluster group is admitted to one member. The group manager filters the members, lets a
strategy pick one, reserves a slot with a compare-and-swap loop, checks the member again, gives the
slot back if it no longer accepts queries, and falls back to the other members. Reconciliation
against the engine, limit changes, health checks, breakers and reloads go on at the same time.
`AdmissionModel` is a step machine: any number of calls, one atomic load, store or compare-exchange
per step, weak exchanges failing spuriously whenever a label says so. Every finite sequence of
labels is a run, so a lemma over `IsRun` is a statement about every interleaving. `AdmissionTraces`
builds runs and `AdmissionWitnesses` holds those on which a stronger promise fails;
`AdmissionGenerations` follows a member through reloads and `AdmissionSettings` its flags, limit and
breaker through the labels that set them. The circuit
breaker is a class whose methods are proved against functions on its contents; `BreakerRuns` then reasons
about whole runs of those functions.

**Caches** (`ResultKey.dfy`, `ResultCache.dfy`, `ResultRows.dfy`, `ResultWriters.dfy`, `Access*.dfy`,
`BoundedCache.dfy`, `CacheContents.dfy`, `CatalogCache.dfy`, `CatalogLookups.dfy`, with `Sorting.dfy`
for canonical orders). The result cache is a byte stream that must determine the query, and a protocol
over two stores that fail independently; `ResultRows` and `ResultWriters` read off any interleaving
what the stores hold and which writer it came from. The access cache is a canonical key, a controller
class, and evaluations that overlap (`AccessOverlap`), which `AccessSolo` ties back to the sequential
one. The bounded LRU and the catalog cache are classes, each with a specification over values and
theorems over whole traces: `CacheContents` says what the LRU holds after any trace, and
`CatalogLookups` lets any number of lookups overlap.

**Configuration** (`ConfigMerge.dfy`, `StaticCatalog.dfy`). The recursive merge of JSON trees, the
expansion of cluster variants, and a table lookup that must not depend on hash order.

## Findings

- A call that answers "no member available" has seen every member refuse queries or be full, but
  "full" compares a count with a limit loaded later. When the limit is lowered in between, the member
  may have been free at every single moment: `LoweredLimitRejectsFreeMember` gives the run,
  `RejectedUnlessLowered` the guarantee when no limit goes down to a count held earlier.
- A member that is returned was seen enabled, then healthy, then let through by its breaker after its
  slot was taken, but not necessarily at one moment: `FlappingMemberAdmitted` gives the run,
  `AdmittedUnlessFlapped` the guarantee when the first two flags stay up.
- A call adds one to exactly the member it returns if and only if none of its undos finds the count at
  zero (`AnswerIsNetIff`); a reconciler can bring that about (`LostUndo`).
- A release conserves slots exactly when the name resolves, in the generation that is used, to the
  cell the query was admitted on (`ReleaseConservesIffMatched`). Released through the current manager
  after reloads that gave the name a cell of its own, a query leaks its slot and takes another's
  (`StolenSlot`).
- A retry instant beyond the last representable one, after a record or after a failed probe, makes the
  breaker grant a probe at once, and nothing else does (`ProbeAtOnceIff`, `ProbeBeforeBackoff`).
- With overlapping evaluations the map of allow decisions outgrows its capacity, by exactly the overlap
  of the inserts (`OverlapBoundsSize`, `OverlapBoundIsReached`).
- The row count in a result's metadata covers every batch its writer was given since the first schema,
  also those of a schema that was replaced and those that could not be encoded, which the file does
  not hold (`RowIsWhatWasWritten`, `FileIsWhatWasWritten`).
- A round of round-robin picks is a permutation exactly when the counter does not wrap during the
  round or the number of candidates divides 2^64 (`RoundRobinFairIff`).
- Merging is not associative when a scalar lies between two objects (`MergeIsNotAssociative`);
  `AssociativeIff` says exactly when the grouping does not matter.
- Expanded cluster names of different bases collide exactly when one base is the other plus a colon
  and the variant of the other begins with that colon (`NameDeterminesIff`).
- The heading above the least-loaded strategy (strategy.rs line 65) speaks of the most remaining
  capacity; the code minimises running queries, and so does the model.

## Model

| member | source | states |
|---|---|---|
| AdmissionModel.Move | crates/queryflux-cluster-manager/src/simple.rs:32-115 | every atomic action of a call, release, reconciliation or overwrite writes only to a cell that exists, and takes one off a cell only when it is above zero, so no count wraps below zero |
| AdmissionModel.Drop | crates/queryflux-cluster-manager/src/cluster_state.rs:217-233 | the decrement loop lowers the count only from a positive value and goes on only with a positive expected value |
| AdmissionSafety.RunInv | crates/queryflux-cluster-manager/src/cluster_state.rs:84-233 | in every state of every interleaving each count is at most the highest limit ever in force over its cell and equals admissions minus releases plus corrections, and every process only mentions members and groups that exist |
| AdmissionSafety.CeilingWasInForce | crates/queryflux-cluster-manager/src/cluster_state.rs:84-90 | the recorded ceiling of a cell is a limit some member drawing on the cell had at an earlier moment, across generations that share it |
| AdmissionGenerations.SameGroupShares | crates/queryflux-cluster-manager/src/cluster_state.rs:84-90 | a new generation whose predecessor is in the same group draws on the predecessor's count, and no count changes |
| AdmissionGenerations.OtherwiseFresh | crates/queryflux-cluster-manager/src/cluster_state.rs:84-90 | in every reachable state, without a predecessor or with one in another group it draws on a count at zero that no earlier member draws on, and no other count changes |
| AdmissionGenerations.GenerationsShareCell | crates/queryflux/src/live_config.rs:1095-1111 | in every state of every run, two members draw on one count if and only if, followed back through predecessors in the same group, they began as the same member |
| AdmissionGenerations.GenerationsWithinOneLimit | crates/queryflux/src/live_config.rs:1095-1111 | over any run without corrections and with every release matched, all generations of a member together hold at most as many slots as some limit that one of them has had |
| AdmissionGenerations.GenerationsWithinFixedLimit | crates/queryflux/src/live_config.rs:1095-1111 | in such runs, while no generation has had a limit above a bound, together they never hold more slots than that, however often the configuration is reloaded |
| AdmissionSettings.SettingIsLatest | crates/queryflux-cluster-manager/src/cluster_state.rs:128-155 | in every run each member's limit, enabled and healthy flags and breaker state are what the latest label concerning them gave: the one that added the member or a later one that set it; a member built without a breaker never gets one |
| AdmissionSettings.OverwriteStoresCapped | crates/queryflux-cluster-manager/src/cluster_state.rs:159-162 | in every run an absolute overwrite stores the number it was given, or the limit it read in between if that is smaller |
| AdmissionSettings.StrayReleaseLowers | crates/queryflux-cluster-manager/src/cluster_state.rs:217-233 | from any state with a positive count, a release that runs alone takes one off it and changes no other |
| AdmissionSafety.RunningWithinSomeLimit | crates/queryflux-cluster-manager/src/cluster_state.rs:159-233 | for all interleavings of admissions, releases, corrections, limit changes and reloads the running count never exceeds a limit that was in force over it by then |
| AdmissionSafety.RunningWithinFixedLimit | crates/queryflux-cluster-manager/src/cluster_state.rs:193-215 | while no limit over a cell exceeds a bound, neither does its count, tentative slots included |
| AdmissionSafety.SlotConservation | crates/queryflux-cluster-manager/src/simple.rs:92-124 | over any run without corrections whose releases are matched, each count is exactly the number of processes that hold a slot (tentative, admitted or being released), through the undo path and across reloads, and zero once nobody holds one |
| AdmissionSafety.ReleaseConservesIffMatched | crates/queryflux-cluster-manager/src/simple.rs:117-124 | starting a release keeps the count equal to the slots held if and only if the first member with that name in the generation used draws on the cell the query was admitted on |
| AdmissionGroups.RunFromGroup | crates/queryflux-cluster-manager/src/simple.rs:39-112 | in every state of every interleaving, the eligible members, the members a call still tries and the one it returned all belong to the group that was asked |
| AdmissionGroups.UniqueNamesMatch | crates/queryflux-cluster-manager/src/simple.rs:117-124 | in every run, with distinct names in the group, a release of an admitted query through the generation that admitted it resolves to the cell the query was admitted on |
| AdmissionGroups.OrderlyConservation | crates/queryflux-cluster-manager/src/simple.rs:92-124 | over any run without corrections, with distinct names in each group and every query released through the manager that admitted it, each count is exactly the number of slots held, and zero once nobody holds one |
| AdmissionWitnesses.StolenSlot | crates/queryflux-frontend/src/state.rs:310-316 | a run in which a query released by name through a newer generation, where its name has a cell of its own, takes another query's slot off the count: two queries then run under a limit that was always 1, and the old cell counts a query nobody runs |
| AdmissionNet.NetIsSlotPlusLost | crates/queryflux-cluster-manager/src/simple.rs:92-112 | in every run, with reconcilers, overwrites and stray releases, what a call has itself added to any cell is one if it holds a slot there plus the number of its undos that found the count at zero |
| AdmissionNet.AnswerIsNetIff | crates/queryflux-cluster-manager/src/simple.rs:32-115 | in every run, a call that answered has added one to exactly the member returned, nothing to the others and nothing after "none", if and only if no undo of the call on that cell found the count at zero |
| AdmissionNet.NetIsSlotHeld | crates/queryflux-cluster-manager/src/simple.rs:92-124 | in runs without corrections and with every release matched, no undo is lost and the equation also covers the release: a finished query has added nothing in total |
| AdmissionWitnesses.LostUndo | crates/queryflux-cluster-manager/src/cluster_state.rs:217-233 | a run in which a reconciler takes a tentative slot off the count, the undo finds zero, and the call answers "none" with a positive net of its own |
| AdmissionOutcomes.RunStory | crates/queryflux-cluster-manager/src/simple.rs:32-115 | at every point of every run, what a call has already observed about each group member covers all members it is not going to try any more |
| AdmissionOutcomes.AdmittedWasAccepting | crates/queryflux-cluster-manager/src/simple.rs:92-112 | a returned member belongs to the group asked, its slot was taken in one identified step of this call, and three later steps of the call, one after the other, saw it enabled, healthy, and without a breaker or with a closed one |
| AdmissionOutcomes.AdmittedUnlessFlapped | crates/queryflux-cluster-manager/src/simple.rs:92-112 | if enabled and healthy stayed up from their confirming reads to the end of the confirmation, the member accepted queries at one moment after its slot was taken, whatever the breaker does |
| AdmissionOutcomes.AdmittedThroughClosedBreaker | crates/queryflux-cluster-manager/src/circuit_breaker.rs:81-83 | in every run, a call that was admitted read the member's breaker after it took the slot and found none, or a closed one, never an open or half-open one |
| AdmissionWitnesses.FlappingMemberAdmitted | crates/queryflux-cluster-manager/src/cluster_state.rs:97-104 | a run in which a member is returned that at no moment since its slot was taken accepted queries |
| AdmissionOutcomes.RejectedRuledOutAll | crates/queryflux-cluster-manager/src/simple.rs:39-49 | a call that returned none has, for every group member, seen it refuse queries or read a count reaching a limit read later in the call |
| AdmissionOutcomes.RejectedUnlessLowered | crates/queryflux-cluster-manager/src/simple.rs:39-49 | if the member's limit was never lowered to or below a count held earlier in the call, there was one moment of the call at which the member refused queries or was full |
| AdmissionWitnesses.LoweredLimitRejectsFreeMember | crates/queryflux-cluster-manager/src/cluster_state.rs:257-259 | a run of one query, its release and a limit change in which another call returns none although its only member accepted queries and was under its limit at every moment of the call |
| AdmissionOutcomes.ReconcileKeepsConcurrentTraffic | crates/queryflux-cluster-manager/src/cluster_state.rs:164-187 | whatever ran since the observation, the reconciler's exchange leaves target plus admissions minus releases plus other corrections since then, clamped to 0..max, and reports the value stored |
| AdmissionSolo.SoloAcquire | crates/queryflux-cluster-manager/src/simple.rs:32-115 | run alone, a call returns none if and only if no member is enabled, healthy, let through and under its limit; otherwise it returns such a member and one on its cell is the only change |
| AdmissionSolo.SoloNoneIff | crates/queryflux-cluster-manager/src/simple.rs:32-115 | said of the fields: run alone, a call returns none if and only if every member is disabled, unhealthy, has an open or half-open breaker, or has a count at or above its limit |
| AdmissionSolo.SoloProgress | crates/queryflux-cluster-manager/src/simple.rs:32-115 | run alone without spurious failures, every action of a call decreases a bounded measure |
| AdmissionSolo.SoloFinishes | crates/queryflux-cluster-manager/src/simple.rs:32-115 | run alone without spurious failures, a call has answered after at most five actions for each group member and fifteen more |
| AdmissionProgress.ExchangeFailsOnlyToAnother | crates/queryflux-cluster-manager/src/cluster_state.rs:164-233 | in every run an exchange of an admission, undo, release or reconciliation that does not fail spuriously fails only because another process wrote the cell after the count was read |
| AdmissionSolo.SoloTakesPicked | crates/queryflux-cluster-manager/src/simple.rs:59-98 | run alone, the member a call is admitted to is the one the strategy picked out of the eligible ones |
| AdmissionSolo.FailoverTakesFirst | crates/queryflux-cluster-manager/src/strategy.rs:86-96 | with a strategy that always picks the first candidate, a call that runs alone is admitted to the first eligible member in group order |
| CircuitBreaker.Breaker.constructor | crates/queryflux-cluster-manager/src/circuit_breaker.rs:52-65 | a new breaker is closed, empty and at the initial backoff, with totals that match its samples |
| CircuitBreaker.Breaker.EvictOldest | crates/queryflux-cluster-manager/src/circuit_breaker.rs:174-181 | dropping the oldest sample keeps the running totals equal to a recount, and they never go below zero |
| CircuitBreaker.Breaker.EvictStale | crates/queryflux-cluster-manager/src/circuit_breaker.rs:97-104 | exactly the longest stale front of the samples is dropped and the totals still match |
| CircuitBreaker.Breaker.EvictExcess | crates/queryflux-cluster-manager/src/circuit_breaker.rs:105-111 | the newest 10,000 samples are kept and the totals still match |
| CircuitBreaker.Breaker.ExceedsRates | crates/queryflux-cluster-manager/src/circuit_breaker.rs:112-118 | the test on the running totals agrees with the rates recounted from the samples |
| CircuitBreaker.Breaker.RecordAt | crates/queryflux-cluster-manager/src/circuit_breaker.rs:89-129 | while closed, the outcome joins the samples, stale and excess ones go, and crossing a rate opens the breaker, empties it and sets the retry time; while open or half-open state, samples, retry time and backoff stay as they are; the totals stay equal to a recount and an opening is reported exactly when it happens |
| CircuitBreaker.Breaker.BeginProbeAt | crates/queryflux-cluster-manager/src/circuit_breaker.rs:137-144 | a probe is granted exactly when the breaker is open and its retry time has come |
| CircuitBreaker.Breaker.FinishProbeAt | crates/queryflux-cluster-manager/src/circuit_breaker.rs:150-171 | a finished probe closes the breaker or reopens it with a doubled, capped backoff; outside half-open it changes nothing |
| BreakerRuns.RecordRefinesRecount | crates/queryflux-cluster-manager/src/circuit_breaker.rs:89-129 | for every run whose records are in time order, after a record the kept samples are the newest 10,000 in-window outcomes since the breaker last closed, filtered one by one from the full history, and the breaker opens exactly when that recount reaches the minimum and crosses a rate |
| BreakerRuns.OpensInNumbers | crates/queryflux-cluster-manager/src/circuit_breaker.rs:89-129 | for records in time order, a record opens a closed breaker if and only if, among the newest 10,000 outcomes since it last closed, those at most window_secs * 10^9 nanoseconds old are at least min_requests and 100 times the unsuccessful or the timed-out ones reach the percentage times their number |
| BreakerRuns.BurstOpens | crates/queryflux-cluster-manager/src/circuit_breaker.rs:94-128 | for a validated config, 10,000 failures at one instant open the breaker from any closed state |
| BreakerRuns.ReachableBurstOpens | crates/queryflux-cluster-manager/src/circuit_breaker.rs:94-128 | for a validated config, after any run that left the breaker closed, 10,000 failures at one instant open it |
| BreakerRuns.BurstFromEmpty | crates/queryflux-cluster-manager/src/circuit_breaker.rs:112-128 | from an empty window, failures at one instant open the breaker if and only if there are at least min_requests of them |
| BreakerRuns.UnreachableMinimumNeverOpens | crates/queryflux-core/src/config.rs:87-92 | with min_requests above 10,000, which validation refuses, no run ever opens the breaker |
| CircuitBreaker.AcceptedIff | crates/queryflux-core/src/config.rs:83-105 | a configuration is accepted if and only if every number is in its range: 10,000 requests, 1 to 100 percent, one year of backoff |
| BreakerRuns.BackoffDoubles | crates/queryflux-cluster-manager/src/circuit_breaker.rs:161-168 | for a validated config the saturating doubling with a cap yields min(initial * 2^k, max) from one failed probe to the next |
| BreakerRuns.ProbeWaitsForAllBackoffs | crates/queryflux-cluster-manager/src/circuit_breaker.rs:119-171 | for every validated run in time order, after k failed probes in an outage the backoff is min(initial * 2^k, max), and in an outage whose retry instants were representable a probe is granted no earlier than the sum of all backoffs so far after the opening |
| BreakerRuns.EarlyEnough | crates/queryflux-core/src/config.rs:84-103 | up to a maximal backoff before the last representable instant, every retry instant of every outage is representable |
| BreakerRuns.ProbeAtOnceIff | crates/queryflux-cluster-manager/src/circuit_breaker.rs:119-171 | for every validated run in time order whose last event, a record or a failed probe, opens the breaker, a probe is due at that very instant if and only if the retry instant cannot be represented, and otherwise exactly once the backoff is over |
| BreakerRuns.ProbeDueIff | crates/queryflux-cluster-manager/src/circuit_breaker.rs:89-144 | in every run, however long ago an event opened the breaker and whatever was recorded since, a probe is granted if and only if the backoff since that event is over, or at once if the retry instant cannot be represented |
| BreakerRuns.ProbeBeforeBackoff | crates/queryflux-cluster-manager/src/circuit_breaker.rs:119-123 | a run at the last representable instant in which a probe is granted before any of the backoff has passed |
| BreakerRuns.SoleProbe | crates/queryflux/src/startup/tasks.rs:657-689 | in every run in which only granted probes are finished, each once, there is exactly one unfinished probe while the breaker is half-open and none otherwise, so every report of a granted probe takes effect |
| BreakerRuns.NoQueryBeforeHealthyProbe | crates/queryflux-cluster-manager/src/circuit_breaker.rs:131-171 | in every run, a breaker that was not closed is closed again only after a healthy report that arrived while it was half-open |
| Strategy.RoundRobin.Pick | crates/queryflux-cluster-manager/src/strategy.rs:54-62 | the pick is in range and follows the wrapping counter, which advances by one except on an empty list |
| Strategy.RoundRobinFairIff | crates/queryflux-cluster-manager/src/strategy.rs:54-62 | n consecutive picks over n candidates choose each candidate exactly once if and only if the counter does not wrap among them or n divides 2^64 |
| Strategy.LeastLoaded | crates/queryflux-cluster-manager/src/strategy.rs:70-78 | the pick is the first of the candidates with the fewest running queries; none exactly for no candidates |
| Strategy.LeastOfEngine | crates/queryflux-cluster-manager/src/strategy.rs:120-132 | the first least loaded candidate of one engine, or none exactly if that engine has no candidate |
| Strategy.EngineAffinity | crates/queryflux-cluster-manager/src/strategy.rs:114-137 | the least loaded candidate of the first preferred engine that has a candidate, and the first candidate when no preferred engine has one |
| Strategy.Accumulate | crates/queryflux-cluster-manager/src/strategy.rs:192-199 | on sums that wrap at 2^32, for a roll below the wrapped total the loop returns the first candidate whose stretch ends beyond the roll; always an index in range |
| Strategy.FirstBeyondLands | crates/queryflux-cluster-manager/src/strategy.rs:192-199 | without overflow that candidate is the one on whose stretch of the line the roll lies |
| Strategy.Weighted | crates/queryflux-cluster-manager/src/strategy.rs:156-201 | for all weights: in range, the first candidate for a wrapped total of zero, else the first whose stretch ends beyond the roll, which without overflow is the one the roll lands on |
| Strategy.FirstListedWeight | crates/queryflux-cluster-manager/src/strategy.rs:167-172 | a listed candidate has the first weight listed for it |
| Strategy.UnlistedWeight | crates/queryflux-cluster-manager/src/strategy.rs:167-172 | a candidate that is not listed has weight one |
| Strategy.RollOfTwo | crates/queryflux-cluster-manager/src/strategy.rs:184-190 | between two candidates of weight one the roll is the parity of the running queries, whatever the wrap-around at 2^64 |
| Strategy.RollWhenIdle | crates/queryflux-cluster-manager/src/strategy.rs:184-190 | what two idle candidates roll for three totals |
| Strategy.RollsProportionalToWeights | crates/queryflux-cluster-manager/src/strategy.rs:192-199 | exactly w_k of the possible rolls land on candidate k, and no roll lands on two candidates |
| ResultKey.Hasher.HashBytes | crates/queryflux-cache/src/lib.rs:204-207 | appends the length-framed bytes to what was absorbed |
| ResultKey.Hasher.HashField | crates/queryflux-cache/src/lib.rs:209-212 | appends a tagged, length-framed field |
| ResultKey.Hasher.HashOptional | crates/queryflux-cache/src/lib.rs:215-220 | appends tag, presence byte and, if present, the framed value |
| ResultKey.Hasher.HashParam | crates/queryflux-cache/src/lib.rs:222-232 | appends the parameter as a field under the tag of its type |
| ResultKey.Hasher.HashParams | crates/queryflux-cache/src/lib.rs:107-109 | the loop appends the fields of all parameters in order |
| ResultKey.NewScoped | crates/queryflux-cache/src/lib.rs:85-117 | the calls on the hasher feed the digest exactly the stream that the decoder reads back |
| ResultKey.DecodeStream | crates/queryflux-cache/src/lib.rs:85-117 | for lengths below 2^64 a decoder recovers SQL, group, user, optional catalog and database (absent apart from empty), every typed parameter and the scope |
| ResultKey.StreamInjective | crates/queryflux-cache/src/lib.rs:85-117 | two queries feed the digest the same bytes only if they are the same query |
| ResultKey.VersionBytes | crates/queryflux-cache/src/lib.rs:85-117 | the first 26 bytes of the stream |
| ResultKey.TypeBytes | crates/queryflux-cache/src/lib.rs:222-232 | the tag byte of each parameter type |
| ResultKey.StreamOfOneLetter | crates/queryflux-cache/src/lib.rs:85-117 | the whole stream of one small query, byte by byte |
| ResultKey.StoragePathInjective | crates/queryflux-cache/src/lib.rs:119-122 | with 16-digit keys, two storage paths are equal only if group and digest are |
| ResultCache.RunInv | crates/queryflux-cache/src/opendal_cache.rs:60-288 | in every interleaving the file, every pending write and every replay hold what one writer finalised with success |
| ResultCache.HitReplaysOneWriter | crates/queryflux-cache/src/opendal_cache.rs:60-137 | in every interleaving of writers, readers, invalidation and cleanup with failing stores, a reported hit gave its sink the schema and all batches of one writer finalised with success, and reports exactly their row total; when it looked and what it may find is `HitIsFresh` |
| ResultCache.MissLeavesSinkUntouched | crates/queryflux-cache/src/opendal_cache.rs:65-120 | a reported miss has given its sink nothing |
| ResultRows.RowIff | crates/queryflux-persistence/src/in_memory.rs:1180-1240 | in every run the metadata row is exactly what the latest successful upsert stored, unless an invalidation or, once it had expired, a cleanup has removed it |
| ResultRows.FileIff | crates/queryflux-cache/src/opendal_cache.rs:238-288 | in every run the file holds exactly what the latest write that landed put there, reported as failed or not, unless it was deleted since |
| ResultRows.HitWasLive | crates/queryflux-cache/src/opendal_cache.rs:60-137 | in every interleaving a reported hit looked the row up before it expired, with no upsert or invalidation since it was stored, and at a later step read what the latest landed write had put in the file |
| ResultRows.MissIsExplained | crates/queryflux-cache/src/opendal_cache.rs:65-120 | in every interleaving a reported miss has a reason: the lookup failed or no row was there that had not expired, the read failed or there was no file, or the first batch could not be read; so a lookup and a read that succeed do not miss unless that batch fails |
| ResultRows.WrittenIsReadBack | crates/queryflux-cache/src/opendal_cache.rs:60-288 | after any run, a result of any schema and batches written, finalised and stored under a positive time to live is read back whole by the next reader, with its row total |
| ResultWriters.FileIsWhatWasWritten | crates/queryflux-cache/src/opendal_cache.rs:223-288 | in every interleaving the file holds the last schema and the batches after it that one writer was given between its creation and its finalisation with success |
| ResultWriters.FinalizedIsFlushed | crates/queryflux-cache/src/opendal_cache.rs:223-252 | after any run, a writer that has been given some content since its creation, in whatever interleaving, goes on to flush exactly that content and row count when it is finalised with success |
| ResultWriters.RowIsWhatWasWritten | crates/queryflux-cache/src/opendal_cache.rs:230-288 | in every interleaving the row counts the rows its writer was given since the first schema, over all schemas, and expires that writer's time to live after it read the clock |
| ResultWriters.HitIsFresh | crates/queryflux-cache/src/opendal_cache.rs:60-288 | in every interleaving a hit was looked up less than the time to live after the writer of the row read the clock, with nothing having ended the row in between, and replays exactly what the writer of the file had been given |
| ResultWriters.CondemnedIff | crates/queryflux-cache/src/opendal_cache.rs:151-196 | in every run a process is about to delete the file if and only if an earlier step of it failed to upsert, invalidated a row or cleaned up an expired one, and it has not yet made the attempt |
| ResultWriters.FailureIsExplained | crates/queryflux-cache/src/opendal_cache.rs:97-120 | in every interleaving a replay fails, rather than misses, only because the sink refused or a batch after the first could not be read |
| Sorting.SortIsCanonical | crates/queryflux-access-control/src/controller.rs:247-297 | sorting by a total order gives equal lists if and only if the inputs hold the same elements equally often |
| AccessKey.ResourceOrderIsTotal | crates/queryflux-access-control/src/controller.rs:278-285 | the nested comparison of resource keys, over every field with optional and list parts, is a total order |
| AccessKey.KeyOfResourceExact | crates/queryflux-access-control/src/controller.rs:259-277 | two resources have the same key if and only if they are the same object with the same columns as a bag |
| AccessKey.ResourcesExact | crates/queryflux-access-control/src/controller.rs:259-285 | two resource lists have the same bag of keys if and only if every resource occurs equally often in both |
| AccessKey.KeyExact | crates/queryflux-access-control/src/controller.rs:247-318 | two requests share a cache key if and only if they agree on everything but the query id, with groups, roles, privileges, grantees, resources and columns as bags and attributes by rendered text |
| AccessController.Controller.CacheGet | crates/queryflux-access-control/src/controller.rs:158-172 | a live entry is returned and kept, an expired one is removed |
| AccessController.Controller.CachePut | crates/queryflux-access-control/src/controller.rs:174-190 | the entry is stored after expired entries, or all of them, made room; at most max(capacity, 1) entries remain |
| AccessController.Controller.Evaluate | crates/queryflux-access-control/src/controller.rs:99-156 | a live allow under the request's key is the reply and the provider is not asked; otherwise its answer is, or after an error an allow exactly if the group is listed as fail-open, or is not listed and the default is, and else a denial that carries the provider's message; only a provider allow under a positive TTL is stored |
| AccessController.EveryReplyIsExplained | crates/queryflux-access-control/src/controller.rs:96-156 | over any run of calls, every reply is the provider's answer to this call, the fail-open or fail-closed result of its error, or an allow the provider itself gave less than the TTL ago to an earlier request that agrees with this one; denials, errors and fail-open allows never come from the cache |
| AccessController.FailureFollowsGroup | crates/queryflux-access-control/src/controller.rs:134-154 | in any run of calls, a call whose provider was asked and failed is allowed if and only if its group is listed as fail-open, or is not listed and the default is fail-open; a denial carries the provider's message |
| AccessController.ServedIff | crates/queryflux-access-control/src/controller.rs:96-190 | while the calls have at most capacity different keys, a call is served from the cache if and only if the provider has allowed an earlier request with the same key less than the TTL ago |
| AccessController.PutKeepsIff | crates/queryflux-access-control/src/controller.rs:174-190 | a put keeps another entry that has not expired if and only if fewer of those than the capacity are in the map, and an expired one only while the map is not full |
| AccessController.CacheStaysBounded | crates/queryflux-access-control/src/controller.rs:174-190 | over any run the cache holds at most max(capacity, 1) decisions |
| AccessOverlap.RunKeeps | crates/queryflux-access-control/src/controller.rs:96-190 | in every interleaving of evaluations, with reading, removing, measuring, retaining, clearing and inserting as separate steps, every entry of the map holds the provider's own allow to the evaluation that inserted it |
| AccessOverlap.OverlappingReplyIsExplained | crates/queryflux-access-control/src/controller.rs:96-190 | in every interleaving, each reply is the provider's answer to this evaluation with an error folded, or, for one that never asked, an allow the provider had given by the time of its read to a request that agrees with this one, inserted less than the TTL before |
| AccessOverlap.OverlappingFailureFollowsGroup | crates/queryflux-access-control/src/controller.rs:134-154 | in every interleaving, an evaluation whose provider failed is allowed if and only if its group is listed as fail-open, or is not listed and the default is; a denial carries the provider's message |
| AccessOverlap.LiveInsertServes | crates/queryflux-access-control/src/controller.rs:96-190 | in every interleaving, an evaluation that reads within the TTL of a decision inserted under its key, and neither removed nor replaced since, is served that decision |
| AccessSolo.SoloIsSequential | crates/queryflux-access-control/src/controller.rs:96-190 | after any run of overlapping evaluations, one that then runs alone, step by step, gives the reply and leaves the map that the sequential evaluation specifies |
| AccessOverlap.OverlapBoundsSize | crates/queryflux-access-control/src/controller.rs:174-190 | in every interleaving the map holds at most max(capacity, 1) - 1 decisions plus the largest number of evaluations ever between making room and inserting at one moment |
| AccessOverlap.OverlapBoundIsReached | crates/queryflux-access-control/src/controller.rs:174-190 | for every positive capacity and every overlap, a run that reaches that bound |
| BoundedCache.Cache.Get | crates/queryflux-core/src/bounded_cache.rs:121-134 | returns the value if present, moves the key to the front and counts a hit or a miss; nothing when disabled |
| BoundedCache.Cache.Insert | crates/queryflux-core/src/bounded_cache.rs:136-150 | puts the key in front, drops the last entry when full, and counts that as an eviction unless the key was present |
| BoundedCache.Cache.SetCapacity | crates/queryflux-core/src/bounded_cache.rs:152-177 | keeps the most recent entries, enables or disables, and counts what was dropped |
| BoundedCache.Cache.Clear | crates/queryflux-core/src/bounded_cache.rs:179-184 | drops every entry and counts nothing |
| BoundedCache.CountersBalance | crates/queryflux-core/src/bounded_cache.rs:116-184 | over any trace, enabled lookups are hits plus misses, and enabled inserts of absent keys are entries plus evictions plus entries cleared |
| BoundedCache.LargerCapacityNeverHitsLess | crates/queryflux-core/src/bounded_cache.rs:121-150 | for one trace of look-up-then-insert-on-miss, the smaller cache always holds the most recent part of the larger one, which hits at least as often |
| BoundedCache.HitIffFewUsedSince | crates/queryflux-core/src/bounded_cache.rs:136-150 | after any such trace, a look-up hits if and only if the key was used before and fewer than capacity other keys were used since, so what is evicted is always the least recently used |
| CacheContents.FoundIff | crates/queryflux-core/src/bounded_cache.rs:116-184 | after any trace of lookups, inserts, changes of capacity and clears, a look-up returns a value if and only if the latest insert for the key, made while enabled, put that value there, no clear came since, and at every moment since fewer keys had been used after it than the capacity then in force |
| CatalogCache.CachingProvider.GetCached | crates/queryflux-catalog/src/caching.rs:66-73 | an entry is returned exactly while it is no older than the TTL |
| CatalogCache.CachingProvider.Insert | crates/queryflux-catalog/src/caching.rs:75-95 | a new key queues up last, an old one keeps its place, the front is dropped down to the bound, and queue and map keep the same keys |
| CatalogCache.CachingProvider.Trim | crates/queryflux-catalog/src/caching.rs:87-94 | the eviction loop leaves the newest keys of the queue with their entries |
| CatalogCache.CachingProvider.Lookup | crates/queryflux-catalog/src/caching.rs:100-147 | a cached answer of the method's own variant is returned and changes nothing; otherwise the delegate's answer is returned and stored unless it is an error |
| CatalogCache.ReachableIsConsistent | crates/queryflux-catalog/src/caching.rs:75-95 | in every reachable state the queue is duplicate-free and holds exactly the map's keys, and the size is within the bound |
| CatalogCache.CachedIsLastPut | crates/queryflux-catalog/src/caching.rs:66-95 | in every reachable state what the cache returns for a key is what the latest insert of that key stored, at most the TTL ago |
| CatalogCache.CachedIff | crates/queryflux-catalog/src/caching.rs:66-95 | in every reachable state the cache returns a value for a key if and only if that was last put under it, at most the TTL ago, and fewer keys than the bound have entered since the key did |
| CatalogLookups.RunKeeps | crates/queryflux-catalog/src/caching.rs:98-147 | in every interleaving of lookups the cache is the result of its inserts, each of which stored, wrapped by its own method, what the delegate answered to a lookup of that method and those arguments |
| CatalogLookups.EveryReplyIsTheDelegates | crates/queryflux-catalog/src/caching.rs:98-147 | in every interleaving of lookups, each reply is the delegate's answer to this lookup, errors included, or, for one that never reached the delegate, what the delegate had answered by the time of its read to a lookup of the same method and arguments, stored at most the TTL before |
| CatalogLookups.ServedIff | crates/queryflux-catalog/src/caching.rs:98-147 | in every interleaving a lookup is served from the cache if and only if the latest put of its key, at most the TTL ago and not yet pushed out, holds an answer of the delegate, and then it is served exactly that |
| CatalogLookups.AnswerIsStored | crates/queryflux-catalog/src/caching.rs:98-147 | in every interleaving whatever the delegate returned to a finished lookup was stored, by an identified step, under that lookup's key |
| CatalogLookups.EntriesHaveOwnVariant | crates/queryflux-catalog/src/caching.rs:98-147 | in every reachable state a live entry has the variant of its key's method, so the check of the variant never turns one away |
| CatalogCache.EvictionIsFifo | crates/queryflux-catalog/src/caching.rs:75-95 | one insert evicts at most the front of the queue, only when over the bound, and leaves every other entry as it was |
| CatalogCache.QueueInEntryOrder | crates/queryflux-catalog/src/caching.rs:75-95 | in every reachable state the queue is strictly ordered by the insert at which each key last entered the cache, as opposed to being refreshed |
| CatalogCache.EvictedEnteredFirst | crates/queryflux-catalog/src/caching.rs:87-94 | over any run, whatever an insert evicts entered the cache before everything that stays |
| ConfigMerge.DeepMerge | crates/queryflux-core/src/config.rs:2180-2195 | the loop over the patch's keys, in any order, yields the merge that the path-by-path law characterises |
| ConfigMerge.MergePathwise | crates/queryflux-core/src/config.rs:2180-2195 | for all trees and paths: what the patch holds wins except that two objects merge, where the patch is not reached the base stays, and below anything else in the patch there is nothing |
| ConfigMerge.EmptyIsUnit | crates/queryflux-core/src/config.rs:2180-2195 | the empty object is a left unit for object patches and a right unit for object bases |
| ConfigMerge.MergeIsIdempotent | crates/queryflux-core/src/config.rs:2180-2195 | for all trees, applying a patch twice is applying it once |
| ConfigMerge.CoveredIff | crates/queryflux-core/src/config.rs:2180-2195 | a patch hides its base entirely if and only if, below two objects, it has every key of the base |
| ConfigMerge.AssociativeIff | crates/queryflux-core/src/config.rs:2180-2195 | for all trees, the two groupings of two patches agree if and only if nowhere a non-object of the middle one separates two objects of which the upper leaves some of the lower visible |
| ConfigMerge.MergeIsNotAssociative | crates/queryflux-core/src/config.rs:2180-2195 | three concrete trees on which the two groupings differ |
| ConfigMerge.DbKwargInjective | crates/queryflux-core/src/config.rs:1983-1994 | for one driver, two override keys never map to the same keyword |
| ConfigMerge.InjectKwargs | crates/queryflux-core/src/config.rs:2250-2254 | every override with an ADBC spelling is stored under it, whatever the order, and no other keyword changes |
| ConfigMerge.Configure | crates/queryflux-core/src/config.rs:2239-2257 | object overrides give an object: the merge, for ADBC with keywords injected where they are an object; other overrides leave the base |
| ConfigMerge.OverrideReachesKwargs | crates/queryflux-core/src/config.rs:2243-2256 | an override with an ADBC spelling ends up in `dbKwargs` under that spelling when that is an object |
| ConfigMerge.SnowflakeOverrides | crates/queryflux-core/src/config.rs:1983-2256 | for every base whose driver is Snowflake, the overrides `warehouse`, `role`, `database` and `schema` are found in `dbKwargs` under their `adbc.snowflake.sql` names |
| ConfigMerge.OtherDriverOverrides | crates/queryflux-core/src/config.rs:1983-2256 | the same for `httpPath`, `project` and `workgroup` under Databricks, BigQuery and Redshift |
| ConfigMerge.Expand | crates/queryflux-core/src/config.rs:2201-2282 | expansion succeeds if and only if no variant name is empty, contains the separator or repeats; it then configures each variant in order, and otherwise reports the first offender with its reason |
| ConfigMerge.AcceptableIff | crates/queryflux-core/src/config.rs:2218-2235 | no variant is refused if and only if all names are non-empty, free of the separator and pairwise different |
| ConfigMerge.SeparatorIff | crates/queryflux-core/src/config.rs:2224-2229 | a name has the separator if and only if it can be split around two colons |
| ConfigMerge.ExpandedNamesDistinct | crates/queryflux-core/src/config.rs:2230-2237 | accepted variants of one base expand to pairwise different cluster names |
| ConfigMerge.NameDeterminesIff | crates/queryflux-core/src/config.rs:2224-2237 | under any two bases, accepted variants expand to the same name if and only if base and variant agree or differ by one colon on either side of the separator |
| StaticCatalog.CandidatesExact | crates/queryflux-catalog/src/static_catalog.rs:54-66 | the candidates are exactly the tables compatible with the requested namespace and name |
| StaticCatalog.MaxByIsGreatest | crates/queryflux-catalog/src/static_catalog.rs:120-128 | the maximum by the comparison is a candidate that no candidate exceeds, and is absent only without candidates |
| StaticCatalog.LookupIsChosen | crates/queryflux-catalog/src/static_catalog.rs:101-129 | the answer is a compatible table of maximal specificity with the least key among ties, and none if and only if nothing is compatible |
| StaticCatalog.LastSegmentOfQualified | crates/queryflux-catalog/src/static_catalog.rs:107-121 | a name without a dot is its own last segment, and that of the name qualified by anything |
| StaticCatalog.EqualUpToCaseIff | crates/queryflux-catalog/src/static_catalog.rs:50-52 | namespaces agree if and only if each pair of characters is equal or one ASCII letter in two cases |
| StaticCatalog.NamedTableWins | crates/queryflux-catalog/src/static_catalog.rs:108-120 | a table that the request names in full, by key or by its last segment, keeps every table without a namespace from being the answer |
| StaticCatalog.OtherNamespaceNeverAnswers | crates/queryflux-catalog/src/static_catalog.rs:50-66 | a table that declares another namespace than the one asked for is never the answer |
| StaticCatalog.ExactKeyWins | crates/queryflux-catalog/src/static_catalog.rs:108-129 | of tables without a namespace, the one configured under exactly the requested name is the answer |
| StaticCatalog.UnqualifiedIsAnswered | crates/queryflux-catalog/src/static_catalog.rs:46-66 | an unqualified request is answered whenever some table has the name, in whatever namespace |
| StaticCatalog.LookupIgnoresEnumerationOrder | crates/queryflux-catalog/src/static_catalog.rs:101-129 | for every two enumerations of the same table map the answer is the same |

## Left out

- Memory ordering: the atomics are sequentially consistent here, while the code uses relaxed loads and stores.
- The loads that fill the candidate snapshots before a pick, the scripted strategy and its blocking dispatch: a pick is any index in range, with any steps in between.
- A lookup of an unknown group, the queued counters, snapshots, logging and metrics: no part of the slot protocol.
- Sharing one breaker between generations, and the link from recorded outcomes to one member's breaker: in the step machine a breaker's state changes arbitrarily.
- Mutex-protected operations of the breaker and the caches are single steps; `record` reads the clock before it takes the lock, so the window results assume records in time order.
- AccessOverlap.OverlapBoundsSize: measuring, retaining and clearing the concurrent map are one step each, though the map walks its shards one by one.
- ResultCache.HitReplaysOneWriter: one key at a time, file writes atomic, a metadata call that reports a failure has had no effect, and a failed in-memory IPC write leaves the buffer as it was; the size in bytes reported with a hit is not modelled.
- XXH64 and its collisions, Arrow IPC, OpenDAL, Postgres, and the insides of the LRU, hash map and mutex libraries: abstract maps, lists and atomic operations.
- The process-wide totals per cache name, and the content hasher beside the bounded cache.
- The health-check and reconcile queries produced with each expanded variant.
- The listing methods of the static catalog: sorting and deduplication only.
- Schema context, tags, security settings, roles and authentication, engine adapters, remote catalogs, routing, frontends, the command line and the website: input/output, or flat case analysis.
