# braunrate, modelled and proved in Dafny

braunrate is a load generator. What it promises is arithmetic and protocol: requests go out where the
integral of the declared rate says, weights are honoured at every prefix of a run, two result files add
up to the file of both runs, a message reaches the call that waits for it, exit code 0 means the run
measured what it set out to measure. This project models the code behind those promises and proves them
for every input, every run or every interleaving.

| module | part of braunrate |
|---|---|
| `ArrivalPlan` | the plan of an open-model run: scheduling by inverting the integral of the rate |
| `WeightedMix` | the deterministic interleaving of weighted steps |
| `OpenLoop` | the dispatcher and its workers under the in-flight limit; one iteration and its latencies |
| `WaitRendezvous` | deliveries and awaits racing over a lock, two maps, a queue and one-slot channels |
| `Aggregates`, `Documents`, `NameOrder`, `Buckets` | counters and histograms, result documents and their sum, the time series |
| `ExitGate` | warnings, sanity checks, rules and the exit code |
| `Migration`, `Rewriting`, `TextEdits` | the format migration: the walk over the tree and the rewriting of the text |
| `RunLifecycle` | cancelling, finishing and following a run in the server |
| `Topological`, `EditDistance`, `ShellSplit`, `SeedMixer` | the import order of descriptors, suggestions for misspelled words, the curl tokenizer, the seed of a stream |
| `Basics` | what several modules share |

How things are modelled:

- Rates, instants and mix positions are exact reals. The square root is a parameter known by its defining
  equation. Truncation of an instant to nanoseconds has its own theorem.
- A histogram is the multiset of the microseconds saved in it; reading quantiles off it is a parameter,
  a function of the multiset alone.
- Concurrent code is a step relation: every section under a lock, every channel operation and every atomic
  operation is one step, and a run is any sequence of enabled steps by any number of threads. The sections
  under a lock are also methods of a class with the fields of the source, proved to do what the steps do.
- Code that works by changing things is a class or a method with a loop, proved against a specification
  function; the theorems are about that function. Iteration over a Go map takes the keys in any order.
- Clocks, the network, what a step's protocol returns and lower-casing are parameters.

Where the source does not keep a property on all inputs, a theorem says exactly when it does, and a lemma
gives an input on which it does not:

- `ArrivalPlan.SchedulingNeverDrifts`: a phase whose slope is not zero but below 10^-12 is inverted as if
  it were flat. Request i is at N(t) = i if and only if its phase is not of that kind or i is exactly the
  count accumulated before the phase (`SlightSlopeDrifts` is a plan that drifts); and it has no instant, the
  code divides by zero, if and only if such a phase also starts at rate zero (`SlightClimbDividesByZero`).
- `WaitRendezvous.ListenersAreNeverForgotten`: no listening call is ever forgotten if and only if no await
  registers over another call and none that gives up unregisters another (`SharedCorrelationForgetsAListener`
  is a run with such a step). Using no correlation twice is enough (`OwnCorrelationsAreEnough`); what is
  forgotten stays so (`ForgottenForGood`).
- `WaitRendezvous.OnlyAnUnfinishedSendIsMissed`: a call whose time is up comes away with nothing if and only
  if no message was taken out for it, or the one that was is still being sent
  (`GivingUpLeavesAMessageUnread` is such a run). That message is never read by anyone (`MissedForGood`), and
  the accounting of messages has a place for it.
- `ArrivalPlan.InstantsStayInTheirPhase`: a request is scheduled before its phase is over if and only if it
  does not spill, that is, unless its phase climbs slighter than 10^-12 and would be over, were it flat,
  before yielding that many requests. `ArrivalPlan.ScheduleIsStrictlyIncreasing`: a request comes before a
  later one if and only if it does not spill, or spills to an instant within the run at which the later one's
  phase has not yielded that one yet (`SpilledRequestComesLate` is a plan where it has).
- `WaitRendezvous.OnlyAFullQueueEvicts`: a held message is evicted if and only if another correlation's message
  is held while the queue is full and its oldest entry is of this correlation. Entries of messages already taken
  stay in the queue: `EvictedWhileTwoAreHeld` is a run that evicts a message while two are held.
- `Documents.MergingInAnyOrder`: merging documents in another order gives the same document but for the
  effective rate, and the very same if and only if the merged window has a millisecond or both orders begin
  with documents of the same rate (`OrderShowsInABriefRun` builds two documents whose order shows).
- `Migration.DistinctKeysStayDistinct`: the keys of a block stay distinct if and only if no two collide: one is
  the translation of the other, or they are the two old words for "expect" or for "throughput"
  (`MigrationCanRepeatAKey` is a step with both).

## Model

| member | source | states |
|---|---|---|
| ArrivalPlan.CompilePlan | internal/engine/plan.go:27-51 | Each phase is placed where the ones before it end, in time and in requests; the total is the whole number of requests; a closed plan has none |
| ArrivalPlan.DeclaredRateIs | internal/scenario/model.go:101-113 | In a steady phase and a spike the declared rate is the phase's rate from its first instant; in a ramp it is on the straight line from the first rate to the second |
| ArrivalPlan.PhaseYields | internal/engine/plan.go:53-61 | Over its length a steady phase or a spike yields rate times duration, a ramp the mean of its rates times duration |
| ArrivalPlan.SteadyRequestsAreEvenlySpaced | internal/engine/plan.go:27-111 | One steady phase or spike has rate times duration requests, rounded down, and request i at i / rate |
| ArrivalPlan.ArrivalsIntegrateRate | internal/engine/plan.go:53-61 | N is the integral of the declared rate: within a phase it grows by the trapezoid under the declared line |
| ArrivalPlan.ArrivalsGrowth | internal/engine/plan.go:53-61 | N never decreases and never grows faster than the peak rate, across phase boundaries too |
| ArrivalPlan.CountIsTrapezoid | internal/engine/plan.go:53-61 | The closed form for the count of a phase is the area under its line |
| ArrivalPlan.RateAt | internal/engine/plan.go:67-77 | The search over compiled phases returns the declared rate, zero outside, never above the peak |
| ArrivalPlan.PeakRate | internal/engine/plan.go:115-121 | The highest rate any phase starts or ends with |
| ArrivalPlan.PeakIsDeclared | internal/engine/plan.go:115-121 | No phase declares a higher rate than the peak, and some phase declares it, unless it is zero |
| ArrivalPlan.RateBounds | internal/engine/plan.go:67-121 | The declared rate is never negative and never above the peak |
| ArrivalPlan.PhaseInverts | internal/engine/plan.go:96-111 | The inversion has an answer if and only if it does not divide by zero; the count at it is the count asked for if and only if no slight slope was taken for flat |
| ArrivalPlan.ExactSlopeIs | internal/engine/plan.go:103 | A slope is inverted exactly if and only if it is zero or at least 10^-12 up or down |
| ArrivalPlan.FindInstant | internal/engine/plan.go:79-94 | The loop finds the phase that serves a request and inverts it, cut at the end of the plan |
| ArrivalPlan.SchedulingNeverDrifts | internal/engine/plan.go:27-111 | For every valid plan: request i has an instant if and only if its phase does not climb from zero slighter than 10^-12; the instant is within the run, and N at it is i if and only if the phase is inverted exactly |
| ArrivalPlan.SlightSlopeDrifts | internal/engine/plan.go:96-111 | A plan, ten seconds from 1 to 1.000000000001 per second, whose request 1 is not where N is 1 |
| ArrivalPlan.SlightClimbDividesByZero | internal/engine/plan.go:103-105 | A plan that climbs from zero at 5 * 10^-13 per second squared, whose request 1 has no instant |
| ArrivalPlan.ExactSlopesAreEnough | internal/engine/plan.go:96-111 | A plan whose slopes are zero or at least 10^-12 does not drift |
| ArrivalPlan.NoDriftMeansExact | internal/engine/plan.go:96-111 | Every request has an instant where N is its number, if and only if every request is inverted exactly |
| ArrivalPlan.InstantsStayInTheirPhase | internal/engine/plan.go:79-111 | The instant of a request is not before its phase begins, and before it is over if and only if the request does not spill |
| ArrivalPlan.SpilledRequestComesLate | internal/engine/plan.go:79-111 | A plan whose request 2, spilled, is not before request 26 of the next phase |
| ArrivalPlan.DriftIsTheSlightArea | internal/engine/plan.go:96-111 | A request that does not spill drifts by exactly the area its slight slope adds, under 10^-12 / 2 times the square of the duration; by nothing where the slope is exact |
| ArrivalPlan.ScheduleIsStrictlyIncreasing | internal/engine/plan.go:79-111 | In every valid plan, for requests that have instants: an earlier one comes strictly before a later one, across phase boundaries too, if and only if it does not spill or is still ahead of what the later phase has yielded |
| ArrivalPlan.PaceFollowsTheDeclaredRate | internal/engine/plan.go:79-111 | At every instant the number of requests scheduled so far is within one, and the most any request drifts, of N; within one if none drifts |
| ArrivalPlan.DueByTracksArrivals | internal/engine/plan.go:79-111 | The same for the first n requests: at most one and the largest drift ahead of N, and that drift behind it only until all n are out |
| ArrivalPlan.BurstsAreBounded | internal/engine/plan.go:67-121 | A window (a,b] holds at most PeakRate * (b - a) + 1 instants, and twice the largest drift |
| ArrivalPlan.TruncationDoesNotDrift | internal/engine/plan.go:79-111 | Whole nanoseconds: less than one nanosecond early, order kept, N short of its value at the exact instant by at most the peak rate over one nanosecond, whatever the index |
| ArrivalPlan.AccumulatedIsNotNegative | internal/engine/plan.go:27-51 | The total number of requests is never negative |
| WeightedMix.GreatestCommonDivisor | internal/scenario/mix.go:98-103 | The loop over two variables computes Euclid's divisor |
| WeightedMix.GcdDivides | internal/scenario/mix.go:98-103 | The divisor divides both numbers |
| WeightedMix.GcdScales | internal/scenario/mix.go:98-103 | A common factor comes out of the divisor |
| WeightedMix.GcdIsGreatest | internal/scenario/mix.go:98-103 | A number divides every weight if and only if it divides their divisor |
| WeightedMix.SharesAreExact | internal/scenario/mix.go:32-61 | Weights in lowest terms lose nothing: weight = divisor * share |
| WeightedMix.SharesAreInLowestTerms | internal/scenario/mix.go:32-61 | The shares have no common factor left |
| WeightedMix.ListSlots | internal/scenario/mix.go:32-80 | Every copy of every step is listed, once |
| WeightedMix.SortSlots | internal/scenario/mix.go:32-80 | The same slots, ordered by position and then by step |
| WeightedMix.SortedIsUnique | internal/scenario/mix.go:32-80 | There is one sorted list of given slots, so the cycle does not depend on the sorting algorithm |
| WeightedMix.MixOrder | internal/scenario/mix.go:32-80 | The order is the steps of the sorted slots of the weights in lowest terms, each before the next in proportion and, at a tie, in order of declaration; empty if and only if no weight is positive |
| WeightedMix.CycleIsInOrder | internal/scenario/mix.go:64-72 | Slot a is before slot b exactly by (2 * copy_a + 1) * share_b against (2 * copy_b + 1) * share_a, a tie going to the step declared first |
| WeightedMix.EqualWeightsTakeTurns | internal/scenario/mix.go:32-80 | n equal weights give the cycle 0, 1, ..., n - 1 |
| WeightedMix.CycleHoldsShares | internal/scenario/mix.go:32-80 | A cycle is as long as the shares together and runs each step exactly its share of times |
| WeightedMix.ScalingKeepsTheCycle | internal/scenario/mix.go:32-80 | Multiplying all weights by one factor leaves the cycle unchanged |
| WeightedMix.PrefixHoldsFirstCopies | internal/scenario/mix.go:32-80 | The copies of a step in a prefix are its first ones |
| WeightedMix.PrefixIsFair | internal/scenario/mix.go:32-80 | Every prefix of one cycle is within the fairness bound |
| WeightedMix.RunsAreCycles | internal/engine/executor.go:396-405 | After m iterations a step has run in every whole cycle and in the beginning of the next one |
| WeightedMix.MixIsFair | internal/scenario/mix.go:32-80 | After any m iterations the count of a step of weight w among n differs from m*w/W by at most 1/2 + n*w/(2W); one cycle runs it w/gcd times |
| OpenLoop.StepKeepsInv | internal/engine/executor.go:214-245 | Every step of the dispatcher, a worker or a cancel keeps: in flight = running workers + the reserved slot, within the limit, sent + dropped = requests decided |
| OpenLoop.EveryRunKeepsInv | internal/engine/executor.go:214-245 | That invariant in every interleaving |
| OpenLoop.InflightIsLimited | internal/engine/executor.go:214-245 | Neither the number in flight nor the reported peak ever exceeds the limit, and the peak is never below the number of workers running |
| OpenLoop.DropsExactlyAtTheLimit | internal/engine/executor.go:228-234 | A step drops a request if and only if it reads the number in flight while the limit of workers runs; below the limit the request goes on to be sent |
| OpenLoop.FinishedRunsAppliedThePlan | internal/engine/executor.go:214-245 | A finished run has nothing in flight; never cancelled, it sent or dropped every request of the plan, so the check for a short run finds nothing |
| OpenLoop.RunIteration | internal/engine/executor.go:335-390 | A failed preparation records one sample and no journey; otherwise the steps up to the first failure, each counted from where the one before ended, and one journey |
| OpenLoop.CorrectedLatenciesAddUp | internal/engine/executor.go:372-388 | The corrected latencies of consecutive steps add up to the time since the scheduled instant |
| OpenLoop.IterationLatencies | internal/engine/executor.go:335-455 | With a monotone clock and no early dispatch: corrected >= service >= 0 for every sample, only the last can fail, the journey is the sum of the corrected latencies and complete exactly when all steps ran and succeeded |
| WaitRendezvous.Subscription.Deliver | internal/protocol/wait/subscription.go:50-70 | The section under the lock: hand over to the waiter, or hold, queue and evict the oldest over the cap; nothing without a correlation |
| WaitRendezvous.Subscription.Await | internal/protocol/wait/subscription.go:73-92 | The first section: take the held message or register |
| WaitRendezvous.Subscription.GiveUp | internal/protocol/wait/subscription.go:93-103 | The second section: unregister |
| WaitRendezvous.DeliverFollowsTheLock | internal/protocol/wait/subscription.go:50-70 | The delivery step does to the shared fields what the method does |
| WaitRendezvous.StepKeepsInv | internal/protocol/wait/subscription.go:50-103 | Every step of any thread keeps the whole invariant: places of messages, queue, channels and waiters agree |
| WaitRendezvous.EveryRunKeepsInv | internal/protocol/wait/subscription.go:50-103 | The invariant in every interleaving of any number of deliveries and awaits |
| WaitRendezvous.EveryMessageIsInOnePlace | internal/protocol/wait/subscription.go:50-103 | Every delivered message is in exactly one place: held, being sent, in one channel, returned, evicted, overwritten or ignored; what went to a call carries its correlation |
| WaitRendezvous.AwaitReturnsItsOwn | internal/protocol/wait/subscription.go:73-103 | An await returns a message delivered under its own correlation, and no two return the same one |
| WaitRendezvous.DeliveredIs | internal/protocol/wait/subscription.go:50-70 | What was delivered under a correlation is what the steps of the run delivered under it |
| WaitRendezvous.HeldIsTheLast | internal/protocol/wait/subscription.go:63 | A message is held only if no later step delivers under its correlation, and overwritten only if one does |
| WaitRendezvous.AwaitTakesTheLast | internal/protocol/wait/subscription.go:73-79 | An await that finds a message held returns the last one delivered under its correlation |
| WaitRendezvous.FinalPlacesLast | internal/protocol/wait/subscription.go:50-103 | A message returned, evicted, overwritten or ignored stays so for the rest of the run |
| WaitRendezvous.ChannelsAreSentToOnce | internal/protocol/wait/subscription.go:50-70 | No channel is sent to twice, and a pending send is never blocked |
| WaitRendezvous.HeldMessagesAreBounded | internal/protocol/wait/subscription.go:50-70 | Held keys are never also waiting, are all queued, and are at most 50000 |
| WaitRendezvous.OnlyAFullQueueEvicts | internal/protocol/wait/subscription.go:63-69 | A held message is evicted if and only if a message of another correlation is held while the queue is full and its oldest entry is of this one's correlation |
| WaitRendezvous.EvictedWhileTwoAreHeld | internal/protocol/wait/subscription.go:63-69 | A run of 50002 steps that evicts a message, by a stale entry of its correlation, while two messages are held |
| WaitRendezvous.OnlyHazardsForget | internal/protocol/wait/subscription.go:73-97 | A step leaves a listening call unreachable if and only if it registers over another call or unregisters another |
| WaitRendezvous.ListenersAreNeverForgotten | internal/protocol/wait/subscription.go:50-103 | In a run every listening call is always registered or has a message taken out for it, if and only if no step of the run is such a hazard |
| WaitRendezvous.OwnCorrelationsAreEnough | internal/protocol/wait/subscription.go:73-103 | A run that never awaits a correlation twice has no hazard |
| WaitRendezvous.ForgottenForGood | internal/protocol/wait/subscription.go:73-103 | A call that became unreachable never gets a message, however the run goes on |
| WaitRendezvous.SharedCorrelationForgetsAListener | internal/protocol/wait/subscription.go:93-103 | A run where two awaits share a correlation, one gives up, and the other listens forever while its message is held |
| WaitRendezvous.GivingUpLeavesAMessageUnread | internal/protocol/wait/subscription.go:57-103 | A run where a waiter gives up between unlock and send and its message stays in the channel |
| WaitRendezvous.EveryRunKeepsMatched | internal/protocol/wait/subscription.go:50-103 | A message taken out for a call is being sent to it, in its channel or returned by it, in every run |
| WaitRendezvous.OnlyAnUnfinishedSendIsMissed | internal/protocol/wait/subscription.go:93-103 | A call takes its last look and comes away with nothing if and only if no message was taken out for it or the one that was is still being sent; there is at most one |
| WaitRendezvous.MissedForGood | internal/protocol/wait/subscription.go:93-103 | A message a call missed is never returned by any call in the rest of the run: it is being sent or lies in that channel |
| WaitRendezvous.UnreadStaysUnread | internal/protocol/wait/subscription.go:93-103 | A message in the channel of a call that answered is in it after any continuation of the run |
| Aggregates.Saved | internal/metrics/aggregate.go:106-115 | What is saved is the whole microseconds of the duration, at least 1 and at most 600 million |
| Aggregates.Aggregate.Record | internal/metrics/aggregate.go:80-104 | Recording adds exactly what one sample contributes to every counter and histogram, keeps the first kind of latency and counts details while there is room |
| Aggregates.DetailsAreCapped | internal/metrics/aggregate.go:94-96 | However many samples are recorded, at most 32 details are kept |
| Aggregates.Aggregate.Add | internal/metrics/aggregate.go:120-136 | Every counter, counter map and histogram becomes the sum of both, details included |
| Aggregates.AddCountsInto | internal/metrics/merge.go:202-213 | The loop adds every key's count, whatever the order of the keys |
| Aggregates.PlusCommutes | internal/metrics/aggregate.go:120-136 | Adding totals commutes |
| Aggregates.PlusAssociates | internal/metrics/aggregate.go:120-136 | Adding totals is associative |
| Aggregates.ByStepIsHomomorphic | internal/metrics/aggregate.go:80-136 | The totals of two lists of samples, per step and overall, are the sums of the totals of each |
| Aggregates.ByStepIgnoresOrder | internal/metrics/aggregate.go:80-136 | Totals depend on the samples as a multiset only |
| Aggregates.OverallIsSumOfSteps | internal/metrics/result.go:282-291 | Adding the step aggregates in any order gives the total of all samples |
| Aggregates.AggregateIsOfItsOwn | internal/metrics/collector.go:94-106 | A step has an aggregate exactly when it has a sample, and it is the total of that step's samples and no others |
| Aggregates.TotalsCount | internal/metrics/aggregate.go:80-104 | Every sample is counted once, and successes are the samples that succeeded |
| Aggregates.HistogramsCount | internal/metrics/aggregate.go:43-49 | Each value of the corrected histogram counts the finished samples that took it since they were scheduled, of the service histogram since they were sent |
| Aggregates.CountersCount | internal/metrics/aggregate.go:86-97 | The counter maps count the failures of each class and the answers of each positive status, and hold no other key |
| Aggregates.SizesAddUp | internal/metrics/aggregate.go:84-85 | Bytes and messages are the sums over the samples |
| Aggregates.DetailsCount | internal/metrics/aggregate.go:94-96 | While fewer than 32 details are known, each counts the failures that gave it |
| Documents.MergedIsExact | internal/metrics/aggregate.go:171-188 | Merging two distributions gives the distribution of the added histograms, quantiles included |
| Documents.Merge | internal/metrics/merge.go:19-90 | The loops compute the sum of all documents with its steps sorted by name, or the first reason there is none: nothing given, format, not comparable, unreadable histogram |
| Documents.MergeRefuses | internal/metrics/merge.go:19-34 | A merge that succeeds was given documents of the current format, one spec and one model; one document is returned as it is and none refused |
| Documents.MergeRefusesOnlyThat | internal/metrics/merge.go:94-116 | Documents of recordings merge if and only if they are of one spec and one model |
| Documents.AddNext | internal/metrics/merge.go:51-75 | Adding one document adds its steps, overall row, journey, scheduling and window, in that order of failure |
| Documents.DocumentAdds | internal/metrics/merge.go:118-200 | Adding the document of one recording to the sum for another gives the sum for both together |
| Documents.BuildRows | internal/metrics/result.go:282-291 | One row per step with a sample, sorted by name, and an overall total equal to the total of all samples |
| Documents.BuildDocument | internal/metrics/result.go:236-315 | Every number of the document is that of the recording; the effective rate is requests over the window |
| Documents.RowsAreOfTheirSamples | internal/metrics/result.go:344-370 | Every number of a row is counted from the samples of its step: requests, successes, errors, bytes, messages, classes, statuses and the sizes of both histograms |
| Documents.DispatchesCount | internal/metrics/collector.go:167-186 | Late dispatches are those beyond the threshold, and each value of the skew counts the delays saved as it |
| Documents.JourneysCount | internal/metrics/collector.go:190-199 | Completed journeys are those that are complete, and each value of the journey histogram counts the journeys that took it |
| Documents.RatesGiveBackTheCount | internal/metrics/result.go:293-304 | Each rate times its window in seconds is the number of requests; without a window the rate is zero |
| Documents.ErrorRateGivesBackTheErrors | internal/metrics/result.go:300-302 | The error rate times the number of requests is the number of errors |
| Documents.MillisecondsAre | internal/metrics/merge.go:189-200 | A window in milliseconds is its whole milliseconds, rounded toward zero |
| Documents.MergeIsHomomorphic | internal/metrics/merge.go:19-213 | However a recording is split, merging the documents of the parts succeeds and gives the document of the whole: counts, counters, histograms, quantiles, journeys and dispatches |
| Documents.MergeKeepsIdentity | internal/metrics/merge.go:189-200 | A merged document has the spec and the model of its parts, so it can be merged again |
| Documents.MergingGroups | internal/metrics/merge.go:19-213 | Merging two merged groups gives exactly the document that merging all their documents at once gives |
| Documents.MergingInAnyOrder | internal/metrics/merge.go:19-213 | Merging the same documents in any order gives the same document but for the effective rate, and the very same if and only if the merged window has a millisecond or both orders begin with the same rate |
| Documents.OrderShowsInABriefRun | internal/metrics/merge.go:83-90 | Two built documents of one half millisecond that merge differently in the two orders |
| Documents.DocumentsIgnoreOrder | internal/metrics/result.go:236-315 | A document is one of a recording exactly when it is one of the same things recorded in another order |
| Documents.DocumentsAgree | internal/metrics/result.go:236-315 | Two documents of one recording have the same list of rows, the same overall row but for the rate, the same journey and the same dispatch numbers but for the peak |
| Documents.OverallIsSumOfRows | internal/metrics/result.go:282-291 | In the document of any recording, merged or not, the overall row is the sum of the step rows: requests, successes, errors and the values in both histograms |
| NameOrder.SortNames | internal/metrics/aggregate.go:231-238 | The names of the steps in ascending order |
| NameOrder.SortedIs | internal/metrics/aggregate.go:231-238 | Sorting keeps every name as often as it was and leaves them in order |
| NameOrder.NotAfterMeans | internal/metrics/aggregate.go:231-238 | The order is that of a dictionary: a name that begins the other, or has the smaller character where they first differ, comes first |
| NameOrder.OrderIsUnique | internal/metrics/aggregate.go:231-238 | There is one ordered list of given names, whatever algorithm found it |
| Buckets.Collector.Apply | internal/metrics/collector.go:94-119 | The new state after a sample: its step's aggregate, its bucket, and buckets a minute behind reduced |
| Buckets.Collector.BucketOf | internal/metrics/collector.go:121-136 | The bucket of an instant exists afterwards, and a new newest bucket reduces the old ones |
| Buckets.Collector.RecordDispatch | internal/metrics/collector.go:167-186 | The new state after a dispatch: sent, peak, skew histogram, late count, and the sent count and target rate of its bucket |
| Buckets.Collector.Close | internal/metrics/collector.go:251-259 | Every bucket is reduced, nothing else changes |
| Buckets.CloseBucketsBefore | internal/metrics/collector.go:138-144 | Exactly the buckets before the limit are reduced, in whatever order the map yields them |
| Buckets.CloseBucket | internal/metrics/collector.go:148-155 | An open bucket is reduced to its quantiles, a reduced one is left alone |
| Buckets.BucketsAddUp | internal/metrics/collector.go:94-186 | For every sequence of dispatches and samples the buckets' sent, completed and errors add up to the collector's counters and the aggregates' totals |
| Buckets.KeyIsTheSecond | internal/metrics/collector.go:121-122 | The bucket of an instant is the second it lies in, from the epoch on; before the epoch the second it ends |
| Buckets.EachBucketCountsItsSecond | internal/metrics/collector.go:94-186 | Each bucket counts exactly the dispatches, samples and failures scheduled in its second |
| Buckets.TargetRateIsTheLast | internal/metrics/collector.go:167-186 | A bucket's target rate is that of the last dispatch into it |
| Buckets.TheLastMinuteIsOpen | internal/metrics/collector.go:121-144 | A bucket no more than 60 seconds behind the newest is open, so a sample of the last minute is never late |
| Buckets.DispatchesAreCounted | internal/metrics/collector.go:167-186 | Late dispatches are exactly those past the threshold, the skew histogram holds every delay, and the peak is the largest number in flight seen |
| Buckets.SeriesIsExact | internal/metrics/collector.go:94-155 | After any events an open bucket holds all its finished samples; a reduced one the quantiles of those before it closed and the number of those after |
| Buckets.ReducedForGood | internal/metrics/collector.go:138-155 | Once reduced, a bucket's quantiles never change, whatever comes later |
| Buckets.ClosedSeries | internal/metrics/collector.go:251-259 | At the end every bucket has the quantiles of exactly the finished samples before it closed, and counts the rest as late |
| Buckets.OpenHistogramsAreBounded | internal/metrics/collector.go:121-144 | Right after the newest bucket advances at most 61 histograms are open |
| ExitGate.GeneratorWarnings | internal/metrics/result.go:374-433 | The warnings that invalidate a run are absent exactly when nothing was dropped or lost, fewer than one dispatch in a hundred was late, and no other warning is high |
| ExitGate.DeclaredStepWithoutSamples | internal/metrics/sanity.go:76-98 | One finding for each declared step that is not among the rows with samples |
| ExitGate.EverythingFailed | internal/metrics/sanity.go:102-134 | The findings for rows where every request failed, one for all when all did |
| ExitGate.InvalidatingWarnings | internal/metrics/sanity.go:180-193 | The kinds of the warnings of high severity, in order |
| ExitGate.FailedMeansNoSuccess | internal/metrics/sanity.go:102-134 | No row is listed as failed exactly when every measured row has a request that did not fail |
| ExitGate.NothingFoundMeansSound | internal/metrics/sanity.go:53-193 | The five checks together find nothing if and only if the measurement holds |
| ExitGate.CheckSanity | internal/metrics/sanity.go:49-193 | A document is valid if and only if the measurement holds |
| ExitGate.Evaluate | internal/slo/slo.go:27-120 | The verdict passes if and only if every rule is satisfied by its obtained value, none of them a latency over a sample where failures are the majority |
| ExitGate.PassesMeansHolds | internal/slo/slo.go:47-120 | A rule passes exactly when its scope has data, is not refused and compares as it should |
| ExitGate.CompareIsStands | internal/slo/slo.go:206-221 | Each operator is the order of numbers it is named for |
| ExitGate.PercentageRulesCount | internal/slo/slo.go:102-109 | Over n requests, overall or of a step, a rule on errors or success compares 100 times the failed or successful ones with the limit times n |
| ExitGate.EmptyPercentagesAreZero | internal/slo/slo.go:102-109 | Over no requests, and over journeys, both percentages are zero |
| ExitGate.StepLatencyRulesRead | internal/slo/slo.go:74-101 | A latency rule on a step holds if and only if it has samples, failures are not their majority, and the quantile of the rule's own name of their times since scheduled compares with the limit |
| ExitGate.OverallLatencyRulesRead | internal/slo/slo.go:62-101 | The same over all samples |
| ExitGate.JourneyLatencyRulesRead | internal/slo/slo.go:66-101 | The same over the journeys, with the completed ones as those that worked |
| ExitGate.ThroughputRulesRead | internal/slo/slo.go:110-112 | A throughput rule compares the effective rate with the limit |
| ExitGate.ExitCode | internal/runner/runner.go:157-174 | Exit 0 if and only if the measurement holds and every rule does; 1 if and only if it holds and some rule does not; 3 if and only if it does not hold |
| ExitGate.RowOfStep | internal/metrics/result.go:282-291 | The row of a step counts that step's samples, successes and failures, and reads its latency off them |
| ExitGate.SoundMeansMeasured | internal/metrics/sanity.go:53-193 | For the document of a recording, the measurement holds if and only if the recorded samples, dispatches and journeys meet each requirement |
| ExitGate.PassingIsAboutTheRecording | internal/runner/runner.go:157-174 | Exit 0 said of the recording: every declared step sampled, every sampled step with a success, under 1% late, nothing dropped or lost, 99% of the plan applied, a completed journey if any started, every rule satisfied by the values of its own samples |
| Migration.KeysAreFinal | internal/scenario/migration.go:211-278 | What a key is renamed to is not renamed again in its context |
| Migration.KeysKeepTheirMeaning | internal/scenario/migration.go:372-487 | A renamed key leads the walk to the same place as before |
| Migration.WalkFollowsTheNewFormat | internal/scenario/migration.go:372-487 | What the walk does below a key, old or new, is what the new format, listed by its new words alone, has under the translation of that key |
| Migration.ValuesAreFinal | internal/scenario/migration.go:129-136 | What a value is renamed to is not renamed again, trimming included |
| Migration.WordsAreTranslated | internal/scenario/migration.go:129-136 | Every old word of a table becomes its new word, with blanks around it or not, and a new word is left alone |
| Migration.PhrasesKeepTheirRest | internal/scenario/migration.go:512-538 | A captured header keeps its name and a generator its arguments |
| Migration.DerivedNamesKeepTheirRest | internal/scenario/migration.go:341-355 | A rule's target derived from kafka, amqp or await is renamed and keeps the rest, unless a step declares that name |
| Migration.LimitsSayWorse | internal/scenario/migration.go:315-339 | In a limit the word is replaced where it stands and the rest kept |
| Migration.NoWordLeft | internal/scenario/migration.go:315-339 | Replacing "pior" by "worse" never leaves or creates another "pior" |
| Migration.RenamingIsFinal | internal/scenario/migration.go:120-136 | In every role a renamed node is left alone |
| Migration.KeysCollide | internal/scenario/migration.go:211-278 | Two different keys of a context become the same key if and only if one is the translation of the other or they are the two old words for one new one |
| Migration.DistinctKeysStayDistinct | internal/scenario/migration.go:280-289 | A block with distinct keys has distinct keys after the migration if and only if no two collide |
| Migration.MigrationCanRepeatAKey | internal/scenario/migration.go:211-278 | A step with both old words for "expect" has that key twice afterwards |
| Migration.RolesAreKept | internal/scenario/migration.go:280-487 | Children of a migrated node are visited in the roles they had |
| Migration.NothingLeftToEdit | internal/scenario/migration.go:280-538 | Walking a migrated tree again collects no edit |
| Migration.StepNamesAreUntouched | internal/scenario/migration.go:372-487 | The name of a step is never changed, and a key is a name key after exactly when it was before |
| Migration.DeclaredNamesAreKept | internal/scenario/migration.go:100-118 | A migrated document declares the same step names |
| Migration.MigrationIsIdempotent | internal/scenario/migration.go:66-82 | On every tree a second migration collects no edit and changes nothing |
| Migration.EditsAreTheDifferences | internal/scenario/migration.go:120-136 | One edit for every node whose value changes, from the old value to the new one, and none for any other: no node gets two |
| Rewriting.Rewriter.Rename | internal/scenario/migration.go:120-127 | One edit, unless the value is the same or empty |
| Rewriting.Rewriter.RenameValue | internal/scenario/migration.go:129-136 | The edit of a value in a table, looked up without surrounding space |
| Rewriting.Rewriter.Mapping_ | internal/scenario/migration.go:280-289 | Collects exactly the edits of a block |
| Rewriting.Rewriter.Sequence_ | internal/scenario/migration.go:291-305 | Collects exactly the edits of a list of profiles, steps or rules |
| Rewriting.Rewriter.Profile_ | internal/scenario/migration.go:307-313 | Collects exactly the edits of a profile |
| Rewriting.Rewriter.SloRule | internal/scenario/migration.go:315-339 | Collects exactly the edits of a rule, whose values are visited after its keys |
| Rewriting.Rewriter.RenameDerivedStep | internal/scenario/migration.go:341-355 | The edit of a derived step name, unless a step declares that name |
| Rewriting.Rewriter.Pair | internal/scenario/migration.go:357-370 | The edit of the key and those of the value, in the meaning of the key |
| Rewriting.Rewriter.Descend | internal/scenario/migration.go:372-487 | Collects exactly the edits of a value in the role its key gives it |
| Rewriting.Rewriter.List | internal/scenario/migration.go:489-496 | The edits of every item of a list of words |
| Rewriting.Rewriter.Comparisons_ | internal/scenario/migration.go:498-510 | The edits of comparison words and of the keys compared |
| Rewriting.Rewriter.CaptureExpression | internal/scenario/migration.go:512-522 | The edit of a capture's source word |
| Rewriting.Rewriter.GeneratorShorthand | internal/scenario/migration.go:524-538 | The edit of a generator's name, arguments kept |
| Rewriting.TargetGetsOneEdit | internal/scenario/migration.go:315-355 | The two renames a rule's target may get never both apply |
| Rewriting.RuleSplit | internal/scenario/migration.go:315-339 | A rule's edits, collected in the order of the code, are those of its nodes |
| Rewriting.DeclaredStepNames | internal/scenario/migration.go:100-118 | The loops find exactly the names declared on the steps of every scenario list |
| Rewriting.CollectEdits | internal/scenario/migration.go:66-98 | The walk over a document collects, as a multiset, exactly the edits of the migration; none if it is not a mapping |
| TextEdits.JoinOfSplit | internal/scenario/migration.go:138-173 | Splitting into lines and joining gives the text back |
| TextEdits.SplitOfJoin | internal/scenario/migration.go:138-173 | Joining lines and splitting gives the lines back |
| TextEdits.OneMoreToTheLeft | internal/scenario/migration.go:138-173 | An edit applied after those to its right matches as it did before them and gives the text with all replaced at once |
| TextEdits.ApplySorted | internal/scenario/migration.go:145-172 | Back to front over sorted edits equals replacing all matching spans at once; the changes are those edits in document order |
| TextEdits.SortByPosition | internal/scenario/migration.go:139-144 | The same edits, ordered by line and column |
| TextEdits.SortedIsApart | internal/scenario/migration.go:138-173 | Sorted edits that do not overlap stand apart from left to right |
| TextEdits.Apply | internal/scenario/migration.go:138-173 | Edits collected in any order give the text with every matching span replaced at once, and the list of exactly the applied ones in document order |
| TextEdits.EditLandsAtItsPosition | internal/scenario/migration.go:152-167 | An edit at line l and column c, counted from one, replaces the text after c - 1 characters of that line and is reported; one whose text is not there changes nothing |
| TextEdits.LinesAreKept | internal/scenario/migration.go:138-173 | Without line breaks in replacements the number of lines is kept, and a line without edits is unchanged |
| Topological.Sorter.Visit | internal/protocol/grpc/grpc.go:487-524 | On success the file and all it imports are placed in order and the path is restored; a failure means a cycle |
| Topological.Sorted | internal/protocol/grpc/grpc.go:487-524 | Visiting the files by name succeeds if and only if the imports among present files have no cycle; then every file once, after all it imports |
| Topological.OrderedHasNoCycle | internal/protocol/grpc/grpc.go:487-524 | If all files can be listed after their imports, there is no cycle |
| EditDistance.TwoRowDistance | internal/text/nearest.go:57-75 | Two overwritten rows compute the recursive Levenshtein distance |
| EditDistance.ScriptsAreNotShorter | internal/text/nearest.go:57-75 | No chain of single insertions, deletions and replacements from one word to another is shorter than the distance |
| EditDistance.AScriptIsAsShort | internal/text/nearest.go:57-75 | And one is exactly as long |
| EditDistance.FillRow | internal/text/nearest.go:63-73 | One row holds the distances of one more character to every prefix |
| EditDistance.DistanceIsSymmetric | internal/text/nearest.go:57-75 | The distance is symmetric |
| EditDistance.DistanceZeroIsEqual | internal/text/nearest.go:57-75 | Only equal words are at distance zero |
| EditDistance.DistanceToItself | internal/text/nearest.go:57-75 | A word is at distance zero from itself |
| EditDistance.TriangleInequality | internal/text/nearest.go:57-75 | A detour over a third word is never shorter |
| EditDistance.Closest | internal/text/nearest.go:10-28 | The first of the nearest words when it is within the tolerance; otherwise the abbreviated word if there is one |
| EditDistance.ToleranceSteps | internal/text/nearest.go:47-55 | One edit is tolerated up to 4 characters, three from 9 on, two in between |
| EditDistance.Nearest | internal/text/nearest.go:10-24 | The loop keeps the first of the nearest words |
| EditDistance.NearestIsUnique | internal/text/nearest.go:10-24 | There is one first nearest word |
| EditDistance.Abbreviation | internal/text/nearest.go:30-45 | The shortest word that begins with at least three received characters, found exactly when there is one |
| ShellSplit.Split | internal/importer/curl.go:41-104 | The index loop is the scan by characters, errors for an open quote and an empty command included |
| ShellSplit.ReadsBackInside | internal/importer/curl.go:41-104 | In single quotes, in double quotes or escaped throughout, the characters of a field are read back as they were |
| ShellSplit.SplitUndoesQuoting | internal/importer/curl.go:41-104 | For every non-empty list of fields, each written in any of the three ways, with blanks and continued lines in between, splitting gives the list back |
| ShellSplit.GapEnds | internal/importer/curl.go:49-54 | Blanks end a field; continued lines alone do not |
| ShellSplit.EscapesOfDoubleQuotes | internal/importer/curl.go:49-71 | In double quotes a continued line vanishes, and a backslash before any other character but a quote or a backslash stays |
| ShellSplit.SplitReportsErrors | internal/importer/curl.go:93-103 | An open quote of either kind, and a command of blanks, are reported |
| SeedMixer.FoldedIsInjective | internal/data/data.go:176-184 | Xor with the word shifted right loses nothing |
| SeedMixer.TimesIsInjective | internal/data/data.go:176-184 | Multiplication modulo 2^64 by a factor with an inverse loses nothing |
| SeedMixer.MixingIsInjective | internal/data/data.go:176-184 | The three xor-shifts and two multiplications together lose nothing |
| SeedMixer.MixingIsUndone | internal/data/data.go:176-184 | The mixer followed by its inverse, shift by shift and factor by factor, gives every word back |
| SeedMixer.StreamSeedIsUndone | internal/data/data.go:176-184 | Undoing the mixer gives seed times 0x9E3779B97F4A7C15 plus sequence, modulo 2^64 |
| SeedMixer.SequencesDoNotCollide | internal/data/data.go:176-184 | For one seed different sequences get different stream seeds |
| SeedMixer.SeedsDoNotCollide | internal/data/data.go:176-184 | For one sequence different seeds get different stream seeds |
| RunLifecycle.RunRecord.Cancel | internal/server/runs.go:51-61 | Marks the run cancelled, answers whether it was the first, and owes the stop if the run is armed |
| RunLifecycle.RunRecord.Arm | internal/server/runs.go:63-73 | Stores the stop, and owes it if a cancel came first |
| RunLifecycle.RunRecord.Append | internal/server/runs.go:141-151 | Adds the line and sends it to every watcher whose channel is not full, once each |
| RunLifecycle.RunRecord.Close | internal/server/runs.go:153-161 | Closes every watcher, each open until then, and forgets them |
| RunLifecycle.RunRecord.Finish | internal/server/runs.go:163-195 | Alone, finish leaves failed, interrupted or done, the last line sent to every watcher and all of them closed |
| RunLifecycle.StepsFollowTheMethods | internal/server/runs.go:141-161 | The steps of the interleaving do to the shared fields and channels what Append and Close do |
| RunLifecycle.RunRecord.Follow | internal/server/runs.go:285-308 | Takes the history and registers a watcher unless the run is closed |
| RunLifecycle.EveryRunKeepsInv | internal/server/runs.go:51-195 | In every interleaving the invariants of stopping, answering, watching and following hold |
| RunLifecycle.CancelledRunsAreStopped | internal/server/runs.go:51-73 | Once one cancel and the arm are through, stop has been called, whatever other cancels still have to do |
| RunLifecycle.OneCancelWins | internal/server/runs.go:51-61 | At most one cancel is told it was the one |
| RunLifecycle.CancelAnswers | internal/server/runs.go:51-61 | A cancel answers true if and only if it is the first, of a run that has not ended |
| RunLifecycle.WatchersAreOpen | internal/server/runs.go:141-161 | Every listed watcher is open and listed once, and none is open after closing: no send on a closed channel, no second close |
| RunLifecycle.OnlyAFullChannelMisses | internal/server/runs.go:141-151 | A watcher misses a line if and only if 64 are waiting in its channel |
| RunLifecycle.ClosedChannelsStayClosed | internal/server/runs.go:153-161 | A closed channel stays closed and accepts no line, in any continuation of the run |
| RunLifecycle.FollowersSeeTheRun | internal/server/runs.go:285-335 | At every moment a follower's output is the earlier history, then later lines in order and none twice; a prefix of all lines, and none missed, while its channel never filled |
| RunLifecycle.EndedStreamsAreComplete | internal/server/runs.go:153-335 | A follower that was connected when the run closed, drained and never full, saw exactly the lines the run had when it closed, the last one included |
| RunLifecycle.LateFollowersSeeTheHistory | internal/server/runs.go:285-304 | A follower of a closed run sees a prefix of the lines it had, all of them when drained |
| RunLifecycle.DoneMeansNotCancelledInTime | internal/server/runs.go:163-195 | A finished run ends as done exactly when no cancel came before finish looked |
| RunLifecycle.CancelledMeansCancel | internal/server/runs.go:51-61 | The run is marked cancelled exactly when a cancel happened |
| RunLifecycle.FinishLooksOnce | internal/server/runs.go:163-195 | What finish acts on is whether a cancel came before its one look |

## Left out

- Floating-point rounding in the plan, the mix, error rates and rule values; 64-bit overflow of counters and indices.
- Requests without an instant: what Go's conversion of an infinite duration yields. The theorems on order, pace, bursts and truncation are for requests that have one, which `SchedulingNeverDrifts` characterises.
- ArrivalPlan.TruncationDoesNotDrift: phase durations are whole nanoseconds, as a Go duration always is.
- WeightedMix.RunsAreCycles: iteration numbers are not negative, as those of a run are; a negative one is folded back into the cycle by the code.
- `checkMix`, `chainedCaptures` and `DeclaredShare` of the mix: messages to the author of a scenario and a reported percentage.
- Sorting in the library is modelled by insertion; uniqueness of the sorted list says that this does not matter.
- Documents.MergeIsHomomorphic: says nothing of the peak in flight (a sum of peaks) and the effective rate (from the union of the windows), which a recording does not determine; MergingGroups and MergingInAnyOrder do.
- Documents.Merge: counters are values, so that `addCounts` writes into the first document's own map is not modelled, nor what a later use of that document would read; details, declared share, kind of latency, key and protocol of a step are not in the rows, nor is the series a merge drops.
- Documents.BuildDocument: the series, the variety of the data, details, the declared share, kind of latency, key and protocol of a step are not part of the document.
- HDR encoding and the rounding of quantiles; quantiles are a function of the saved multiset.
- Buckets.Collector.Apply: the bounded channel in front of the collector, its lost samples and its journeys and variety are not fields of the class; a recording of a document has them as values.
- ExitGate.ExitCode: regression rules are a predicate of the rule, and the warnings about target degradation, variety and the scenario are parameters; sentences and evidence are left out.
- Reading YAML: anchors, quoted scalars and their positions. That edits of different nodes do not overlap is taken from the parser; an edit whose text is not found at its position is skipped, as in the source.
- Rewriting.CollectEdits: the order in which edits are collected is not stated, since applying them sorts them first.
- Topological.Sorted: error texts are left out.
- EditDistance.Closest: lower-casing is a parameter that turns no word but the empty one into the empty word; a character of the model stands for a byte of the source.
- OpenLoop.RunIteration: the iterations are those of the open model; what a protocol returns, and how long it takes, is a parameter.
- RunLifecycle.FollowersSeeTheRun: a stream whose client goes away ends early, which only shortens the output; the capacity of the outgoing channel is not modelled.
- Liveness: that a step that can happen does happen, and how long anything takes.
- The closed loop, protocol clients, authentication, CSV and synthetic data beyond the seed, comparison of runs, reports, the site, the DSL builder and the command line.
