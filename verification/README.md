# Scoring and audit pipeline: a verified model

This project models the path of one fraud-scoring request: vendors are asked in two phases, their reports are
aggregated into a decision, the decision is published as an event, and an at-least-once consumer writes it into a
write-once audit table, a review queue and a retraining sink. It proves what holds over every interleaving, fault and
crash of that path.

The pieces, one module per file:

- `Domain`, `Sums`: vendor reports, results; sums and sorting that do not depend on order.
- `Pipeline`, `Simulated`, `Stability`: the aggregation with its gates and thresholds, the simulated vendor with its
  enrichment, and how the final score reacts to the vendors' scores.
- `FanIn`: the scorer's goroutines, channel, deadline and dependent call as a step system with arbitrary interleavings.
- `VirtualTime`: the production and the naive collecting loops in virtual time, the nested deadlines, and the whole
  pipeline with its dependent call. `Eager`: every schedule of `VirtualTime` is a run of `FanIn`.
- `Guard`, `Metrics`: per-source budget, breaker and telemetry. `Incident`: what a burst costs with and without them.
- `Audit`: the conditional put over one key space, and the in-memory sink.
- `Consumer`, `Worker`: the handler, its batch, the deduplicating sinks, and one iteration of the poller.
- `Delivery`: the queue, its receive counts and dead-letter queue, several workers that make one remote call at a time,
  lost, unreported and repeated calls, crashes, expiring visibility, partly failing delete requests.
- `Safety`, `Evidence`, `Confluence`, `Settling`, `Redrive`, `Sequential`: what every run of `Delivery` keeps, where it ends, and how it
  relates to the imperative code.
- `Service`: the request handler, and the theorem that follows an answer from the vendors to the audit table.

The remote calls of `Consumer` and the steps of `Delivery` use the same two functions (`CallStores`, `CallPC`), so the
handler methods and the concurrent protocol are one model: the methods are proved to be a fold of those steps, and
`Sequential` proves that a worker nobody interferes with takes exactly those steps.

## What the code does not promise

The header of `internal/consumer/consumer.go` (lines 9-13) says that every step runs on every delivery, so that nothing
is skipped after the dedup row commits. That is true of the review queue and the retraining sink. It is not true of
provider responses: on a duplicate, `writeAudit` returns (lines 77-81) before the loop that stores them (lines 86-90).
`Confluence.DeletedWithoutEvidence` gives, for every event that carries a response, a run in which the message is
deleted as a success and the first response is in no row. `Evidence.CompleteIffNoHarm` states exactly when all responses
are stored: if and only if none of three things happened to the request: its decision write committed without the
writer learning so (and there was a response to store), a provider write of the winning delivery reported an error that
left something unwritten, or its worker crashed inside the loop. `Evidence.LostStaysLost` says that redelivery never
repairs it.

A request id taken from a caller's header is not filtered, and nothing stops a caller from using one again. Messages of
one id may then carry different events, and an answer may have another answer's decision row.
`Service.AnswerIsRecordedExactly` says when: in every run that deletes a copy of an event, the decision row is its
decision if and only if all events published under its id carry that decision; the retraining sink holds it if and only
if all of them are equal to it; the review queue, where it needs a review, if and only if all of them that need one are.

The key encoding of `internal/audit/dynamodb.go` does not separate all request ids. Two different ids share a provider
key, for some sources, if and only if one of them followed by `#` begins the other (`Audit.PairCollision`); ids without
`#`, such as the generated ones, never do. The table behaves like two independent maps on all puts for a set of ids if
and only if no two of them clash so (`Audit.RefinesExactlyWhenNoClash`).

The final stores of the consumer are independent of the schedule if and only if both hold: messages of one id carry equal
events, and no two published responses of different requests share a key (`Confluence.ConfluentExactly`).

Stage A of the production scorer and of the naive one collect the same reports, whatever the schedules, if and only if no
vendor would answer exactly at the deadline (`VirtualTime.SameCollectedExactlyWithoutTies`): at such a tie the select may
take either branch. That production ends no later holds with ties too.

The in-memory sink appends provider responses without any check (`internal/audit/audit.go` lines 150-155), where the
conditional put refuses a key it has. The two hold the same decisions after every sequence of puts, and give the same
replies if and only if no provider key is put twice or is already stored (`Audit.MemorySinkAgreesExactly`).

The weights of the vendors are not checked. For weights of positive total, the final score stays in the range of the
reported scores if and only if no weight is negative (`Pipeline.ConvexExactlyWithoutNegativeWeights`).

## Model

| member | source | states |
|---|---|---|
| Safety.DeletionSafety | internal/consumer/consumer.go:56-72 | In every run with concurrent workers, faults and crashes, a deleted message parsed, its decision row is stored, its review is enqueued if the decision is MANUAL_REVIEW, and its retraining event is emitted |
| Safety.SafeStep | cmd/worker/main.go:86-107 | Every action keeps: deleted messages are done, and each worker's position implies the effects it has passed |
| Delivery.Conservation | cmd/worker/main.go:55-110 | Published messages are always partitioned into queued, in flight, deleted and dead-lettered, with matching counts |
| Delivery.ConservedStep | deploy/terraform/modules/app/async.tf:16-28 | Every action keeps the partition; no message is received more than five times, at most ten at once, and only those received five times are redriven |
| Delivery.ReceiveIsFree | cmd/worker/main.go:63-84 | Exactly which messages a worker may receive together: any one to ten different visible ones with receives left |
| Delivery.FaultsAreFree | internal/consumer/consumer.go:56-92 | In every reachable state the next call of a busy worker may meet any fault |
| Delivery.TroubleIsFree | deploy/terraform/modules/app/async.tf:16-28 | Exactly when a worker may crash, a message in flight may become visible again, and a message may be redriven |
| Delivery.DeletionIsFree | cmd/worker/main.go:92-107 | Exactly what a delete request may remove: any part of the successes of a finished batch |
| Redrive.DeadLetteredAfterFiveExpiries | deploy/terraform/modules/app/async.tf:23-26 | Every run that dead-letters a message contains at least five expiries of it: it became visible again, undeleted, after each of its five receives |
| Settling.EveryActionDecreases | cmd/worker/main.go:55-110 | Every action of every reachable state strictly lowers one measure over remaining receives, unfinished work and hidden messages |
| Settling.RunsSettle | deploy/terraform/modules/app/async.tf:16-28 | Every run has at most six weighted steps per published message, and where nothing can happen every message is deleted or dead-lettered and every worker idle |
| Evidence.AtMostOneDeliveryEnters | internal/consumer/consumer.go:74-92 | In any run from any state at most one delivery per request id enters the provider loop, and none if the decision row exists |
| Evidence.ProviderRowsArePrefixOfWinner | internal/consumer/consumer.go:74-92 | At all times, for any request id: the decision row is that of the one delivery on record as its writer, and the rows under keys that no other request shares are exactly those of a prefix of the responses of that delivery; empty if its decision write was not acknowledged; a worker in the loop stands exactly at the end of the prefix |
| Evidence.CompleteIffNoHarm | internal/consumer/consumer.go:77-90 | Whenever no worker stands in the loop of a decided request, whatever other workers do, all its responses are stored if and only if no action of the run was harmful to it |
| Evidence.HarmedIsHarmfulRun | internal/consumer/consumer.go:86-90 | The history of harmed requests is exactly what can be read off the faults and crashes of the run |
| Evidence.LostStaysLost | internal/consumer/consumer.go:77-81 | Once nobody is in the loop, no later action changes the rows that belong to the request |
| Evidence.EvidenceStep | internal/consumer/consumer.go:74-92 | Every action keeps the invariant that ties winner, written prefix, workers in the loop and harm together, for every request id |
| Evidence.SeparateWithoutClash | internal/audit/dynamodb.go:39-41 | A request id that clashes with no other published id has all its provider keys to itself |
| Confluence.Confluent | internal/consumer/consumer.go:56-123 | Any two harmless runs that have dealt with every parsable request end in the same table, reviews and retraining events, whatever the order, duplication, interleaving and number of workers, if messages of one id carry equal events and no two requests share a key |
| Confluence.NeverDisagree | internal/consumer/consumer.go:56-72 | In any two reachable states of any two runs the decision row, review and retraining event of a request are equal where both exist |
| Confluence.RequestConfluent | internal/consumer/consumer.go:56-123 | If in both runs a copy of the request is deleted, nobody writes its responses and nothing harmed them, all its rows and effects are the same |
| Confluence.ConfluentExactly | internal/consumer/consumer.go:56-123 | All harmless runs that deal with every request end in the same stores if and only if messages of one request id carry equal events and no two published responses of different requests share a key |
| Confluence.ConfluentExactlyWithoutClash | internal/audit/dynamodb.go:39-64 | For ids that do not clash, they do if and only if messages of one request id carry equal events |
| Confluence.UnequalEventsMakeOrderVisible | internal/consumer/consumer.go:74-81 | For every two different events under one id there are two orders of the messages whose sequential runs leave different stores |
| Confluence.RecordedExactly | internal/consumer/consumer.go:56-92 | For a published event, in every run that deletes a copy of it the decision row, the retraining entry and the review are its own if and only if all events under its id have its decision, are equal to it, and are equal to it where they need a review |
| Confluence.FirstEventStands | internal/consumer/consumer.go:105-123 | After a fault-free batch the event delivered first has its decision row, its retraining entry and its review |
| Confluence.NoSharedKeysWithoutClash | internal/audit/dynamodb.go:39-41 | Ids that do not clash pairwise share no key |
| Confluence.SharedKeyMakesOrderVisible | internal/audit/dynamodb.go:39-64 | For every shared key there are two orders of the messages whose sequential runs leave different stores |
| Confluence.VerdictsConfluent | internal/consumer/sinks.go:27-66 | For all faults and crashes: once a copy of a request is deleted in both runs, its decision row, review and retraining event are the same, whatever became of other messages |
| Confluence.ConcurrentEqualsSequential | internal/consumer/consumer.go:105-123 | Those stores are the ones the batch code leaves when it processes every message once, in any order, without faults |
| Confluence.FirstCommittedDecisionStays | internal/audit/dynamodb.go:43-64 | From any state, also with unequal events under one request id, the decision committed first stays, row and winner |
| Confluence.DeletedWithoutEvidence | internal/consumer/consumer.go:77-90 | For every event with a response there is a run that deletes its message as a success and leaves its first response in no row |
| Confluence.OriginStep | internal/consumer/sinks.go:27-66 | Every action keeps: sinks hold only published events under their own id, reviews only MANUAL_REVIEW ones, and every row belongs to a request |
| Sequential.SoloDelivery | internal/consumer/consumer.go:56-92 | A worker nobody interferes with runs one event exactly as the handler does, fault for fault |
| Sequential.SoloPoll | cmd/worker/main.go:63-108 | Receive, process alone, delete: a run of the step system whose stores are those of the batch fold, that deletes exactly the successes and hides exactly the failures |
| Sequential.ReferenceRun | internal/consumer/consumer.go:105-123 | For every order of the messages the fault-free sequential run exists, deletes every message that parses and leaves the stores of the batch fold |
| Sequential.DeliverAllConcat | internal/consumer/consumer.go:105-123 | Two batches one after the other are one batch |
| Sequential.RunExtends | internal/audit/dynamodb.go:43-64 | No run changes or removes anything stored |
| Consumer.Handler.Process | internal/consumer/consumer.go:56-72 | The new stores, the number of remote calls and the verdict are those of the step-by-step delivery |
| Consumer.Handler.WriteAudit | internal/consumer/consumer.go:74-92 | What remains of the delivery after the audit part is the two sinks, or nothing and a failure |
| Consumer.Handler.WriteResponses | internal/consumer/consumer.go:85-91 | What remains of the delivery after the loop over the responses is the two sinks, or nothing and a failure |
| Consumer.Handler.NotifySinks | internal/consumer/consumer.go:61-71 | The review queue if the decision needs it, then the retraining sink, stopping at the first error |
| Consumer.Handler.ReviewIfNeeded | internal/consumer/consumer.go:61-66 | Exactly the MANUAL_REVIEW cases go to the review queue |
| Consumer.Handler.ProcessBatch | internal/consumer/consumer.go:105-123 | The final state is the fold of deliveries over the parsable messages, the result the ids whose verdict is false |
| Consumer.DedupSink.Emit | internal/consumer/sinks.go:27-66 | The first event of a request id takes effect, later ones do not; errors may hide an effect that happened |
| Consumer.DeliverRecorded | internal/consumer/consumer.go:56-72 | From any program point a delivery only adds to the stores, and if it succeeds its three effects are there |
| Consumer.DeliverNotifies | internal/consumer/consumer.go:61-71 | After the audit part, the step-by-step delivery is the notification of the two sinks |
| Consumer.DoneMeansRecorded | internal/consumer/consumer.go:105-123 | A message of a batch counts as done only if it parsed and its effects are in the final state |
| Consumer.FailedPositions | internal/consumer/consumer.go:101-122 | The reported ids are the order-preserving subsequence of the failed messages, none missed |
| Consumer.FailedIffSomeCopyFailed | internal/consumer/consumer.go:101-122 | An id is reported exactly when some copy of it failed |
| Consumer.ByIDIsLog | internal/consumer/sinks.go:27-38 | The index by request id holds exactly the logged effects |
| Worker.PollOnce | cmd/worker/main.go:79-101 | An id is in the delete request if and only if every copy in the batch succeeded; each id once, with the receipt of its last copy; what is deleted parsed and has its effects stored |
| Worker.BatchVerdicts | cmd/worker/main.go:86-101 | Received and not reported is the same as every copy done, and then its effects are stored |
| Worker.Successes | cmd/worker/main.go:92-101 | The delete request lists exactly the received ids outside the failed set, once each |
| Worker.IndexByID | cmd/worker/main.go:79-84 | The index maps each received id to its last copy |
| Audit.TableRefinesTwoMaps | internal/audit/dynamodb.go:35-64 | On every sequence of faulty puts in which no two different pairs of request id and source share a key, the one table and two independent write-once maps give the same replies and keep representing each other |
| Audit.ProviderKeyInjective | internal/audit/dynamodb.go:39-41 | For request ids that do not clash the provider key determines request id and source |
| Audit.KindsDisjoint | internal/audit/dynamodb.go:35-41 | Decision keys and provider keys never meet |
| Audit.PairCollision | internal/audit/dynamodb.go:39-41 | Two different request ids share a provider key, for some sources, if and only if one of them followed by the separator begins the other |
| Audit.HashFreeNeverClash | internal/audit/dynamodb.go:39-41 | Request ids without the separator never clash |
| Audit.RefinesExactlyWhenUnambiguous | internal/audit/dynamodb.go:35-64 | On fault-free puts the replies of the table and of the two maps agree if and only if no two pairs stored or put share a key |
| Audit.ClashBreaksRefinement | internal/audit/dynamodb.go:39-41 | For every clashing pair of ids there are two puts of which the table refuses the second and the two maps accept both |
| Audit.RefinesExactlyWhenNoClash | internal/audit/dynamodb.go:35-64 | The table refines two maps on all puts for a set of request ids if and only if no two of the ids clash |
| Audit.RowsNeverChange | internal/audit/dynamodb.go:43-64 | No sequence of puts, faulty or not, changes or removes a stored row |
| Audit.MemorySinkAgrees | internal/audit/audit.go:127-148 | On every sequence of decision puts the in-memory sink and the table give the same replies and hold the same decisions |
| Audit.MemorySinkAgreesExactly | internal/audit/audit.go:127-155 | On fault-free puts of both kinds they hold the same decisions, and give the same replies if and only if no provider key is put twice or is already stored |
| Audit.MemoryKeepsResponses | internal/audit/audit.go:150-155 | The in-memory sink keeps every response that was put, in order, repetitions included |
| Audit.DynamoSink.ConditionalPut | internal/audit/dynamodb.go:43-64 | The key is written unless it exists; the reply is Ok exactly for an undisturbed write of a new key, a failure exactly if the call was lost or unreported, and "already exists" otherwise |
| Audit.DynamoSink.PutDecision | internal/audit/dynamodb.go:35-37 | A conditional put under "DEC#" and the request id |
| Audit.DynamoSink.PutProviderResponse | internal/audit/dynamodb.go:39-41 | A conditional put under "PRV#", the request id, "#" and the source |
| Audit.MemorySink.PutDecision | internal/audit/audit.go:139-148 | Appends unless the id is stored, and reports which |
| Audit.MemorySink.PutProviderResponse | internal/audit/audit.go:150-155 | Always appends |
| FanIn.SendNeverBlocks | internal/scorer/scorer.go:86-93 | In every interleaving a goroutine ready to send finds a free slot of the channel |
| FanIn.SendsExactlyOnce | internal/scorer/scorer.go:89-112 | Every goroutine sends at most once, and exactly once when it has exited |
| FanIn.FanInSafety | internal/scorer/scorer.go:95-130 | The channel never exceeds its capacity; the collected reports are within the successes, and equal to them if the deadline branch was not taken, which happens only after the deadline; at most one per provider |
| FanIn.DependentCalledOnce | internal/scorer/scorer.go:63-70 | A scorer with a dependent vendor returns only after calling it exactly once, whether it answers or fails, and what it answers is collected; without a dependent nothing is called |
| FanIn.AnswerFacts | internal/scorer/pipeline.go:75-88 | The answer carries the weighted mean of what was collected, or 0, and the sorted sources of all of it |
| FanIn.InvStep | internal/scorer/scorer.go:95-130 | Every action keeps: received plus buffered are what was sent, collected is what was received plus the dependent's answer, observed is what is past its observer call |
| FanIn.NoLeaks | internal/scorer/scorer.go:86-94 | Every run has at most 4n+4 steps; when only vendors that ignore their context can still act, every goroutine of the other providers has exited, and the scorer has returned or waits for a dependent that ignores its context |
| FanIn.CollectedIsObserved | internal/scorer/scorer.go:63-72 | In as-you-go mode every collected report has been observed when the scorer returns |
| FanIn.ObservedMayExceedCollected | internal/scorer/scorer.go:109-127 | The other direction fails: a late report may be observed and not used |
| FanIn.AnswerIsFinal | internal/scorer/scorer.go:57-73 | Goroutines that finish after the return change nothing in the answer |
| FanIn.ScheduleCannotChangeTheVerdict | internal/scorer/scorer.go:116-129 | Two complete runs with the same reports of the independent vendors, the enriched dependent answering in both or in neither, return the same score, decision and signals |
| Eager.EagerScheduleIsARun | internal/scorer/scorer.go:95-130 | Every eager schedule of the vendors, left at any point the loop may leave it, is a run of the step system with the same reports in the same order, cut exactly if the loop is |
| FanIn.NoAutomaticVerdictOnThinData | internal/scorer/pipeline.go:55-106 | Over whole runs APPROVE or DECLINE implies that at least one and at least the minimum number of providers succeeded, confidently enough; the signals are the sorted sources used, at most n+1 |
| VirtualTime.RunStageA | internal/scorer/scorer.go:116-129 | Reads exactly the resolutions before the deadline (a tie may go either way) and returns with the last of them, or at the deadline |
| VirtualTime.RunNaiveStageA | internal/scorer/naive.go:75-84 | The same for the loop that only advances on successes |
| VirtualTime.SameCollected | internal/scorer/naive.go:56-85 | Without a vendor that would answer exactly at the deadline, both fan-ins collect the same multiset of reports |
| VirtualTime.SameCollectedExactlyWithoutTies | internal/scorer/naive.go:56-85 | Both fan-ins collect the same whatever the schedules if and only if no vendor would answer exactly at the deadline |
| VirtualTime.ProductionNoLater | internal/scorer/scorer.go:83-130 | Ties or not, production Stage A returns no later than naive Stage A, and both by the deadline |
| VirtualTime.PinnedToDeadline | internal/scorer/naive.go:56-57 | Naive waits for the deadline if and only if some vendor does not succeed before it; production if and only if some vendor does not resolve before it |
| VirtualTime.ProductionDominatesNaive | internal/scorer/naive.go:41-54 | Ties or not, production ends no later; its dependent answers whenever naive's does, unless it would end exactly at the budget; without a Stage A tie it then uses at least naive's signals, and decides the same if the dependent answered in both or in neither |
| VirtualTime.BureauCall | internal/providers/simulated.go:60-81 | The simulated dependent answers what it derives from the reports it is given, after its latency, unless it fails or its context ends |
| VirtualTime.EffectiveDeadlineIsLeast | internal/providers/guarded.go:109-115 | A nested deadline is the least of the root and all budgets above it |
| VirtualTime.StageDeadlines | internal/scorer/scorer.go:57-97 | The deadlines of the two stages are those of the chain of contexts |
| VirtualTime.RunPipeline | internal/scorer/scorer.go:57-73 | Stage A runs under the deadline of the chain of contexts and leaves Stage B the difference of the budgets even if no provider honours its context; the dependent is asked with exactly the reports of Stage A, when Stage A ends; the pipeline ends by the outer deadline if and only if there is no dependent, or it honours its context, or it is fast; the answer is the verdict on those reports and what the dependent answered |
| VirtualTime.GuardedStageAEndsByGuardBudget | internal/providers/guarded.go:109-115 | With every vendor guarded, all resolve and production Stage A ends by the guard's budget |
| Pipeline.Decide | internal/scorer/pipeline.go:64-106 | The loop, gates and thresholds compute the verdict, whose score, gate, decision and signals are written out below |
| Pipeline.DecisionExactly | internal/scorer/pipeline.go:91-104 | Which decision is taken exactly when, with the gate written as a sum of confidences against the minimum times the number of reports; the score is the quotient of the sums, 0 without weight; the signals are sorted, one per report |
| Pipeline.CoveredExactly | internal/scorer/pipeline.go:89-95 | The coverage gate as a comparison of sums, without a division |
| Pipeline.ConfidenceGate | internal/scorer/pipeline.go:91-95 | With enough reports the gate opens if each is confident enough and stays shut if none is |
| Sums.LeExactly | internal/scorer/pipeline.go:82-84 | The order of the signals written out: a prefix comes first, otherwise the first difference decides |
| Pipeline.VerdictIndependentOfOrder | internal/scorer/pipeline.go:64-106 | Permuting the collected reports changes nothing in the result |
| Pipeline.ScoreIsConvex | internal/scorer/pipeline.go:75-88 | With nonnegative weights the score lies between the least and greatest collected score, or is 0 when the weights vanish |
| Pipeline.ConvexExactlyWithoutNegativeWeights | internal/scorer/pipeline.go:75-88 | For weights of positive total, the score stays in every range of reported scores if and only if no weight is negative |
| Simulated.DeriveScore | internal/providers/simulated.go:88-109 | The loop computes the blend with the prior mean, clamped to 0..100 |
| Simulated.AnswerExactly | internal/providers/simulated.go:71-108 | Without prior signals an unclamped answer is base score plus nudge; with them both halves count half; name, weight and confidence are those configured |
| Simulated.OnePriorScore | internal/providers/simulated.go:100-107 | Raising one of n prior scores by e raises an unclamped answer by half of e/n |
| Simulated.NudgeExactly | internal/providers/simulated.go:88-93 | The nudge lies between -10 and 10, reaches both, and steps by a hundredth |
| Simulated.AnswerIndependentOfOrder | internal/providers/simulated.go:100-107 | The enriched answer does not depend on the order of the prior signals |
| Stability.ScoreIsMonotone | internal/providers/simulated.go:88-119 | Raising Stage A scores never lowers the final score, through the enriched Stage B call |
| Stability.ScoreIsLipschitz | internal/scorer/pipeline.go:42-88 | Changing every Stage A score by at most d moves the final score by at most d |
| Stability.BureauMoves | internal/scorer/pipeline.go:42-53 | The bureau is asked with the reports of Stage A: raising one of them moves its unclamped contribution by half of e/n |
| Stability.DecisionIsMonotone | internal/scorer/pipeline.go:91-104 | For the same vendors, riskier Stage A scores never make the decision more lenient |
| Guard.BreakerCostBound | internal/providers/guarded.go:57-85 | An always failing vendor that honours its nested context is called at most the trip count plus the open windows elapsed, and costs at most that many budgets |
| Guard.WithinBudget | internal/providers/guarded.go:109-115 | A request to a vendor that honours its nested context takes no longer than the budget, nor longer than its caller would wait |
| Guard.SlowVendorTimesOut | internal/providers/guarded.go:109-133 | A vendor slower than its budget is cut off after exactly the budget, with a deadline error that is counted as a timeout |
| Guard.CallerEndsFirst | internal/providers/guarded.go:109-115 | A caller whose context ends first sees its own error, and only then |
| Incident.SickExactly | internal/providers/guarded.go:103-119 | Through its guard the sick vendor resolves at once if the breaker refuses, and otherwise takes what it takes |
| Incident.BurstIsCheap | internal/scorer/incident_test.go:117-137 | All Stage A time of a burst with one guarded, always failing vendor is at most the healthy latency per request plus one budget per failure up to the trip count and per elapsed open window |
| Incident.NaiveBurstIsDear | internal/scorer/incident_test.go:117-137 | With the naive fan-in a vendor that never answers costs every request the whole deadline |
| Guard.OneWindowExactly | internal/scorer/incident_test.go:117-137 | Within one open window exactly the first failures get through |
| Guard.OpensExactlyOnConsecutiveFailures | internal/providers/guarded.go:65-77 | The breaker opens at some point if and only if a stretch of errors other than caller cancellations, uninterrupted by a success or such a cancellation, reaches the trip count (5 if not configured) |
| Guard.BlamelessRunStaysClosed | internal/providers/guarded.go:68-77 | Calls without an error, or with a cancellation by the caller, never open it, and every call reaches the vendor |
| Guard.TrialsClose | internal/providers/guarded.go:61-64 | After the open window exactly as many successful trial requests as configured (1 if not) close the breaker, all of them reaching the vendor |
| Guard.FailedTrialReopens | internal/providers/guarded.go:61-64 | One failed trial opens it for another whole window (60 seconds if not configured) |
| Guard.BreakersAreIsolated | internal/providers/guarded.go:87-99 | In any interleaving over a guarded set each vendor's breaker and errors are those of its own requests alone |
| Guard.ObservationsAddUp | internal/providers/guarded.go:117-133 | One observation per call; the four outcome counts add up; refused is exactly not invoked; the recorded time is the vendor's time |
| Guard.OutcomesCountResults | internal/providers/guarded.go:121-133 | Each outcome counts exactly the callers that saw its results: none, a deadline error, a refusal, any other error |
| Guard.GuardedProvider.Fetch | internal/providers/guarded.go:103-119 | One call through the breaker: its error, the next state written out for a closed, an open and a half-open breaker, and one observation with the outcome of that error |
| Guard.GuardedProvider.FetchAll | internal/providers/guarded.go:103-119 | A sequence of calls gives the states, errors and observations of the breaker run |
| Guard.GuardSet | internal/providers/guarded.go:87-99 | Every provider gets its own guard with its own closed breaker |
| Guard.Serve | internal/providers/guarded.go:87-119 | Serving any interleaving on the guards of a set leaves each guard in the state, and gives its callers the errors, of a run with its own requests alone |
| Guard.ServeFresh | internal/providers/guarded.go:87-119 | The same for the set as it is built, every breaker closed |
| Metrics.Collector.ObserveProvider | internal/metrics/metrics.go:55-70 | The nested map is always the aggregate of all observations so far |
| Metrics.Collector.Count | internal/metrics/metrics.go:73-82 | The number of matching observations |
| Metrics.Collector.AvgLatency | internal/metrics/metrics.go:85-94 | The mean of the matching latencies truncated towards zero, written out with bounds; 0 if there are none |
| Metrics.OutcomesPartition | internal/metrics/metrics.go:55-70 | The counts over the outcomes add up to the vendor's observations |
| Metrics.AverageBetween | internal/metrics/metrics.go:84-94 | The truncated average lies between the least and greatest matching latency |
| Service.ScoringService.Score | internal/service/scoring.go:52-108 | The answer is that of the scorer, whatever the publish does; what is queued is copies of one event whose ids, decision, request fields and responses are, field by field, those of the answer, the request and the observed reports |
| Service.ScoringService.PublishAnswer | internal/service/scoring.go:81-105 | Copies of exactly this event are queued, whether or not the publish reports an error |
| Service.ScoreObserved | internal/scorer/scorer.go:57-73 | Along any interleaving the observer ends up with exactly the observed reports, and the answer is the verdict on the collected ones |
| Service.EventExactly | internal/service/scoring.go:81-96 | The event written out, field by field: ids, decision, request fields, and one response per observed report |
| Service.EventHasOneID | internal/service/scoring.go:81-96 | The event, its decision and all its responses carry one request id, which is also the event id |
| Service.EvidenceCoverage | internal/service/scoring.go:68-96 | In as-you-go mode the event has a response with the source, score and confidence of every collected report, under the request id and input hash of the decision |
| Service.EveryAnswerIsRecorded | internal/service/scoring.go:79-105 | For all faults and crashes: once a copy of the event is deleted, every field of the decision row is that of the answer and the request if all events of the id carry that decision, and the sinks hold this event if all are equal to it |
| Service.AnswerIsRecordedExactly | internal/service/scoring.go:79-105 | And only then: in every run that deletes a copy, the row is the answer if and only if all events under its id carry this decision; likewise for the two sinks |
| Service.NothingObserved | internal/service/scoring.go:66-79 | Without an observer the event carries no responses |
| Service.EveryAnswerIsEvidenced | internal/service/scoring.go:52-108 | From vendors to table: once a copy of the event is deleted and nothing harmed its responses, the table holds a matching response for each used source under every key that no other request shares, whatever became of other messages |

## Left out

- Floating point: scores, weights and times are exact reals, so order independence and the convexity, monotonicity and Lipschitz bounds hold for exact arithmetic only.
- Integer width: the metric counters are unbounded; `int64` overflow of total nanoseconds is not modelled.
- JSON, SHA-256 and FNV: parsing is a function from bodies to optional events, the input hash and the applicant hash are parameters. That an event survives encoding and decoding unchanged is assumed.
- SQS, DynamoDB and Lambda internals: an abstract queue and an atomic conditional put that may be lost, unreported or repeated. A message that the queue delivers again after a successful delete is not modelled. Expiry of the visibility timeout may happen at any time; retention periods are not modelled.
- A marshalling failure in the conditional put counts as a lost call.
- The Lambda entry point of the consumer: it uses the same batch function and reports the failed ids instead of deleting the others.
- The two logging sinks are one class, `DedupSink`. In the source their `seen` maps live in memory and they never fail; here they survive a crash and may fail, which is what their interfaces ask of a production sink.
- Safety.DeletionSafety: speaks of the sinks as durable; with the in-memory logging sinks a process restart forgets what was seen and later deliveries repeat the effect.
- Guard.BreakerCostBound: the breaker engine is a library outside the repository; a closed/open/half-open machine is assumed, and requests to one vendor are sequential. Concurrent requests to one half-open breaker and the clearing interval of a closed one are not modelled.
- VirtualTime.ProductionDominatesNaive: says nothing of the signals where a vendor would answer exactly at the Stage A deadline, since the fan-ins may then differ.
- Evidence.CompleteIffNoHarm: is about responses with distinct sources under keys of their own; a second response of one source can never have a row of its own.
- VirtualTime.RunStageA: the collector is eager and scheduling takes no time; arbitrary scheduling is covered by `FanIn`, without times.
- FanIn.NoLeaks: goroutines of vendors that ignore their context are exempt; the source cannot stop them either.
- Service.ScoringService.Score: the read of the response slice while a late observer may append is taken as an atomic snapshot at or after the scorer's return.
- Service.EveryAnswerIsEvidenced: the report stored for a source is the very one aggregated only if sources are distinct; with two providers of one name the table keeps the first response.
- Logging sinks, log and metric output, HTTP and gRPC transports, authentication, middleware, id generation, configuration parsing, graceful shutdown, infrastructure other than the redrive limit: no state the properties need.
- `public/fonts/fa-solid-600.eot` is not a font and not part of the service; its content deserves the repository owner's attention.
