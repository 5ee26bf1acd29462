# A verified model of the big.LITTLE CFS scheduler and its block layer

This project models, in Dafny, the parts of the repository in which many
places have to agree with each other: the completely fair scheduler with
heterogeneous multi-processing (`backup/fair_mp.c`, `backup/big_little_hmp.c`)
and the request and cgroup bookkeeping of the 3.10 block layer
(`3.10/block/blk-core.c`, `3.10/block/blk-cgroup.c`,
`3.10/block/blk-cgroup.h`).

Each file is one component.

- `BandwidthProtocol.dfy`: CFS bandwidth control as a protocol between threads,
  the period timer and the slack timer, at the grain of lock sections. No
  throttled queue is ever forgotten, the bouncing start of the timer cannot
  deadlock, and the books balance exactly over whole runs.
- `BandwidthOrder.dfy`: the same protocol over runs that serve the throttled list in
  order. Every throttled queue can be unthrottled from every reachable state, every
  uninterrupted pass of either timer is the pass of `BandwidthPass.dfy`, and a run
  shows how a solvent queue comes to take a whole quota.
- `BandwidthPass.dfy`: one uninterrupted distribution pass and the period timer
  around it.
- `Hierarchy.dfy`: the tree of run queues of a CPU; after any sequence of
  enqueues, dequeues, throttles and unthrottles all redundant counters agree.
- `LoadAvg.dfy`, `TimeScale.dfy`: geometric decay in fixed point, its numeric bounds
  over every sequence of updates and which sum each update feeds; the time scaling
  under it.
- `LoadSums.dfy`: the sums of contributions and ratios that queues and CPUs keep
  by differences.
- `WeightedTime.dfy`: the accuracy of the inverse-weight multiplication and of
  the slices a queue hands out.
- `Timeline.dfy`: the vruntime tree under 64-bit wrap-around, its cached leftmost
  entity and the fairness of the pick.
- `LoadBalance.dfy`: the `goto`-driven retries of `load_balance` terminate, pulling
  is bounded, and what a pass leaves behind it had no use for.
- `ActiveMigration.dfy`: the handshake between balancing threads and CPU stoppers,
  task references and task placement, in every interleaving; nominated tasks arrive.
- `Thresholds.dfy`: the dynamic up and down thresholds of HMP migration.
- `ThrottledClock.dfy`: the group clock that stops while throttled.
- `PartialCompletion.dfy`: completing a request piece by piece.
- `RequestList.dfy`: request limits, congestion hysteresis, elevator-private
  accounting and bypass.
- `BlkgRegistry.dfy`: the blkg registry with its three indexes, hint, parent links
  and reference counts.
- `Words.dfy`, `Common.dfy`: 64-bit machine words; helpers that several components use.

Code that changes fields in place is a class whose methods are proved equal to
a function of the old state; the deep properties are lemmas about those
functions. The two protocols are state machines whose runs are all
interleavings of lock sections.

## Assumptions

- 64-bit build, `SCHED_LOAD_RESOLUTION` 0, `NICE_0_LOAD` 1024, positive weights.
- Red-black rebalancing keeps the in-order sequence; the radix tree is a map.
- `hrtimer_try_to_cancel` is negative exactly while the callback runs.
- A group's quota is finite, and the trees of groups and cgroups are fixed during
  a run.
- `find_busiest_queue` looks only at CPUs of the mask outside the pulling group,
  and a balancer never kicks its own CPU.
- In `BandwidthProtocol` a distribution pass may visit queues in any order and
  stop at any time. That allows more runs than the code, so it serves only for what
  is proved of all runs. What is shown to be possible, and what a pass achieves, is
  in `BandwidthOrder`, where a pass serves the head of the throttled list until list
  or money runs out.
- In `ActiveMigration` the `hmp_force_migration` lock is not relied on, so again
  what is proved of all runs covers more runs than the code has. The run of
  `StopperDelivers` is one stopper's own sequence of steps.

## Where the code and its promises part

- Runtime that a queue has just been assigned can count as expired at once, exactly if
  its old deadline is 2^63 from the pool's (`BandwidthProtocol.AssignedIsFresh`).
- A throttled queue that is solvent takes the whole pot of a distribution pass,
  because its shortfall wraps to a huge 64-bit number
  (`BandwidthPass.SolventQueueTakesAll`). `BandwidthOrder.SolventStarvesDebtor`
  is a run from a fresh group that gets there: a throttled queue that is made to run
  is assigned runtime, and then takes a quota that would have paid another queue's
  debt.
- The 32-bit product behind `load_avg_contrib` wraps if the weight is large, as for
  nice -20 in a run of one update (`LoadAvg.HeaviestTaskWraps`). The comment above it
  says it avoids overflow. Among all averages that keep the bound of
  `LoadAvg.EveryRunBounded`, reached by a run or not, some wrap exactly if the weight
  is above 87383 (`LoadAvg.SafeWeights`).
- Completing a request in two pieces is completing it in one, except that a second
  call with an error and no bytes marks the next bio, and except for the sector if
  the second call finishes the request (`PartialCompletion.UpdateComposes`,
  `PartialCompletion.SectorComposes`).
- `blk_queue_bypass_start` documents that no request carries elevator data when it
  returns. That is kept by the start that finds bypass mode off, and by a nested
  start exactly if the first one has finished its drain
  (`RequestList.FirstStartPromise`, `RequestList.NestedStartPromise`).
- The group clock jumps ahead by all earlier throttled time when a throttle begins
  and goes back by as much when it ends. Its readings never go back exactly if no
  throttled interval ends once time has been lost before
  (`ThrottledClock.NeverBackIff`, `ThrottledClock.StepsBack`). Readings taken while
  not throttled never go back.
- The wrapping vruntime comparison is an order on a set of entities exactly if a
  window smaller than 2^63 holds them (`Timeline.OrderIffWindowed`).

## Model

| member | source | states |
|---|---|---|
| BandwidthProtocol.NoLostUnthrottle | backup/fair_mp.c:2487-2491 | over every interleaving of throttling, assigning, both timers and the bouncing timer start, a throttled queue implies a live period timer or a thread still starting it; timer_active is set iff the timer is live; the throttled list holds exactly the throttled queues, once each |
| BandwidthProtocol.BouncingEnds | backup/fair_mp.c:2873-2894 | a thread that bounces cfs_b->lock goes on only while the callback has decided to stop and can return without a lock, after which the thread arms the timer; it never waits for a callback that is handing out runtime, so the two cannot deadlock |
| BandwidthProtocol.StepKeepsInv | backup/fair_mp.c:2583-2660 | every lock section keeps list, timer flag and rescue consistent |
| BandwidthProtocol.TakeFills | backup/fair_mp.c:2288-2331 | assigning fills a queue up to the slice or takes the whole pool, and moves exactly that |
| BandwidthProtocol.AssignFills | backup/fair_mp.c:2288-2331 | whoever asks gets runtime up to the slice as far as the pool goes, after a refill if the timer was not active, at once or at the end of a bounce; the timer is then active and the lock released |
| BandwidthProtocol.QuotaConserved | backup/fair_mp.c:2261-2383 | over whole runs pool, amounts in flight, local runtime and time charged are exactly the start plus one quota per refill, less what was forfeited on the way |
| BandwidthProtocol.StepConserves | backup/fair_mp.c:2706-2773 | the exact effect of each step on the books: a refill adds the quota; taken out are runtime that expired in a queue, what the pool held when a refill or a pass overwrote it, and what came back after its period |
| BandwidthProtocol.ChargeExpires | backup/fair_mp.c:2338-2384 | charging takes away what was used and all runtime of an earlier period, extends a deadline that only the local clock has passed, and leaves a queue with runtime only if its deadline lies ahead of the clock or is not behind the pool's; whoever has none left goes on to assign |
| BandwidthProtocol.DeadlineMoves | backup/fair_mp.c:2261-2276 | the pool's deadline moves with a refill only, to one period from then |
| BandwidthProtocol.AssignedIsFresh | backup/fair_mp.c:2288-2331 | runtime that has just been assigned is not stale at any clock iff the queue's and the pool's deadline were not exactly 2^63 apart |
| BandwidthProtocol.HandedExpiresWithPool | backup/fair_mp.c:2554-2564 | over every run, what the period timer hands to a throttled queue expires with the pool |
| BandwidthProtocol.IdleChanges | backup/fair_mp.c:2583-2660 | exactly when cfs_b->idle is set, kept and cleared |
| BandwidthProtocol.IdleMeansQuiet | backup/fair_mp.c:2583-2660 | over every run without a period boundary, idle still set at the end means that nothing was handed out since |
| BandwidthProtocol.StopsIff | backup/fair_mp.c:2593-2607 | the timer stops at a period boundary iff the group is idle and nothing is throttled |
| BandwidthProtocol.GiveBackOffers | backup/fair_mp.c:2706-2730 | what a queue keeps and gives back, and that the slack timer is set iff there is then more than a slice for throttled queues and the period timer is neither at work nor due |
| BandwidthProtocol.SlackTakes | backup/fair_mp.c:2745-2773 | the slack timer takes the whole pool iff it holds more than a slice and the period timer is neither at work nor due |
| BandwidthOrder.RescueStaysPossible | backup/fair_mp.c:2539-2660 | no dead end: from every reachable state, whoever holds which locks, however long the list and deep the 64-bit debts, some run that serves the list in order unthrottles any given throttled queue, as long as the quota is positive |
| BandwidthOrder.TimerRescues | backup/fair_mp.c:2583-2660 | with all locks free and a live period timer, queued, between periods or in the middle of a pass, steps of that timer alone, in list order, unthrottle any given throttled queue |
| BandwidthOrder.WorkRescues | backup/fair_mp.c:2583-2660 | with all locks free, a callback between periods or in the middle of a pass works down the list by its own steps until any given queue's turn has come and it is unthrottled; list length, debt of the head and phase of the callback are the measure |
| BandwidthOrder.LocksGetFree | backup/fair_mp.c:2288-2331 | from any state in which the callback is not about to stop, the lock holders get on and let all locks go, with the list as it was |
| BandwidthOrder.EveryPassPays | backup/fair_mp.c:2539-2576 | every uninterrupted pass in list order, of the period timer or the slack timer, leaves the queues, the list and the money exactly as BandwidthPass.Pass says |
| BandwidthOrder.PassExists | backup/fair_mp.c:2539-2576 | such a pass can be made from every state in which one may begin |
| BandwidthOrder.PeriodPays | backup/fair_mp.c:2583-2660 | one period pays as one pass with one quota; if no throttled queue is solvent, a queue is unthrottled iff the quota covers its debt and the debts of all queues before it in the list |
| BandwidthOrder.SlackPays | backup/fair_mp.c:2745-2773 | the slack timer pays likewise with what the pool holds, if that is more than a slice |
| BandwidthOrder.ServeOutcome | backup/fair_mp.c:2550-2567 | serving a throttled queue frees it iff it is solvent or the money covers its debt; otherwise it takes all and stays |
| BandwidthOrder.OrderedIsRun | backup/fair_mp.c:2546-2571 | a run in list order is a run of the protocol, so all that holds of every run holds of it |
| BandwidthOrder.SolventTakesAll | backup/fair_mp.c:2554-2564 | a throttled queue that is solvent takes all that is being handed out |
| BandwidthOrder.SolventReached | backup/fair_mp.c:2367-2383 | a run from a fresh group, with nothing in any queue, to a queue that is throttled and solvent |
| BandwidthOrder.SolventStarvesDebtor | backup/fair_mp.c:2554-2564 | that run continued: the whole quota goes to the solvent queue while a queue it would have freed gets nothing |
| BandwidthPass.GrantIsU64 | backup/fair_mp.c:2554-2557 | the amount a queue is granted, in unbounded numbers, is what the 64-bit code computes |
| BandwidthPass.PassConserves | backup/fair_mp.c:2539-2576 | a pass moves runtime from the pot to the queues; none is lost or made |
| BandwidthPass.PassSpendsOrFrees | backup/fair_mp.c:2539-2576 | a pass spends everything or leaves every queue freed at exactly 1 ns |
| BandwidthPass.IndebtedPass | backup/fair_mp.c:2539-2576 | if no listed queue is solvent, all are freed iff the pot covers the debts, and the rest is exactly what is over |
| BandwidthPass.FreedIff | backup/fair_mp.c:2539-2576 | if no listed queue is solvent, the queue at a place in the list is freed iff the pot covers the debts up to and including its own |
| BandwidthPass.SolventQueueTakesAll | backup/fair_mp.c:2554-2564 | a solvent throttled queue takes the whole pot; a queue gets what it is short of iff it has at most 1 ns |
| BandwidthPass.SolventQueueStarvesDebtor | backup/fair_mp.c:2554-2564 | a concrete pass in which a solvent queue leaves an indebted one with nothing; BandwidthOrder.SolventStarvesDebtor reaches such a list by a run |
| BandwidthPass.SweepIsPass | backup/fair_mp.c:2546-2572 | serving list heads until list or money runs out is the pass |
| BandwidthPass.CfsBandwidth.Distribute | backup/fair_mp.c:2539-2576 | the loop computes the pass: what is left, which queues are freed and in what order, which stay |
| BandwidthPass.CfsBandwidth.PeriodTimer | backup/fair_mp.c:2583-2660 | alone, the period timer stops iff idle with nothing throttled, hands out one quota by one pass, and its while loop turns at most once |
| Hierarchy.ThrottleKeepsSound | backup/fair_mp.c:2453-2492 | throttling a group keeps all counters of the tree in agreement |
| Hierarchy.ThrottleInEnqueue | backup/fair_mp.c:2780-2797 | a throttle in the middle of an enqueue leaves exactly the disagreement the enqueue is about to repair |
| Hierarchy.EnqueueOutcome | backup/fair_mp.c:3030-3071 | enqueueing a task keeps all counters in agreement, adds exactly that task, and throttles exactly the first group on the way up that was empty, not throttled and out of runtime, if everything below it was empty |
| Hierarchy.EnqueueKeepsSound | backup/fair_mp.c:3030-3071 | enqueueing a task, with any queues throttled on the way, keeps all counters in agreement |
| Hierarchy.EntityFlags | backup/fair_mp.c:1933-1936 | one turn throttles the queue iff it was empty, not throttled and out of runtime |
| Hierarchy.EnqueueUpFlags | backup/fair_mp.c:2780-2797 | along the whole way up exactly one group is throttled, the one that is struck first, or none |
| Hierarchy.DequeueKeepsSound | backup/fair_mp.c:3080-3132 | dequeueing a task keeps all counters in agreement |
| Hierarchy.UnthrottleOutcome | backup/fair_mp.c:2494-2537 | unthrottling a group keeps all counters in agreement and all tasks, clears its flag, and throttles exactly the first group above that wakes up out of runtime |
| Hierarchy.UnthrottleKeepsSound | backup/fair_mp.c:2494-2537 | unthrottling a group keeps all counters in agreement |
| Hierarchy.SoundDetermined | backup/fair_mp.c:2423-2537 | two states in agreement with the same tasks and throttled flags are the same: tasks and flags determine all counters |
| Hierarchy.NrRunningIsRunnable | backup/fair_mp.c:2482-2483 | the CFS part of rq->nr_running is the number of queued tasks with no throttled queue on their path to the root |
| Hierarchy.EveryRunAgrees | backup/fair_mp.c:2423-2537 | after any sequence of operations: a group entity is queued iff its queue is neither empty nor throttled, h_nr_running and throttle_count are what they count, and nr_running counts what can run |
| Hierarchy.RunQueue.constructor | backup/fair_mp.c:2423-2451 | an empty tree of queues is in agreement |
| Hierarchy.RunQueue.ThrottleClimb | backup/fair_mp.c:2467-2483 | the climbing loop of throttle_cfs_rq |
| Hierarchy.RunQueue.ThrottleWalk | backup/fair_mp.c:2453-2492 | throttle_cfs_rq computes the specified state from any state |
| Hierarchy.RunQueue.EnqueueOne | backup/fair_mp.c:1905-1938 | enqueue_entity with check_enqueue_throttle, as far as the counters go |
| Hierarchy.RunQueue.CountUp | backup/fair_mp.c:3055-3070 | the second, counting loop of enqueue and dequeue |
| Hierarchy.RunQueue.EnqueueWalk | backup/fair_mp.c:3030-3071 | both loops of enqueue_task_fair |
| Hierarchy.RunQueue.DequeueWalk | backup/fair_mp.c:3080-3132 | both loops of dequeue_task_fair |
| Hierarchy.RunQueue.UnthrottleWalk | backup/fair_mp.c:2511-2532 | the loop of unthrottle_cfs_rq |
| Hierarchy.RunQueue.ThrottleGroup | backup/fair_mp.c:2453-2492 | throttling keeps the queue valid and changes no task |
| Hierarchy.RunQueue.EnqueueTask | backup/fair_mp.c:3030-3071 | enqueueing keeps the queue valid, adds exactly one task, and changes exactly the flag of the group that wakes out of runtime |
| Hierarchy.RunQueue.DequeueTask | backup/fair_mp.c:3080-3132 | dequeueing keeps the queue valid and removes exactly one task |
| Hierarchy.RunQueue.UnthrottleGroup | backup/fair_mp.c:2494-2537 | unthrottling keeps the queue valid, changes no task, and changes exactly its own flag and that of the first group above that wakes out of runtime |
| TimeScale.ConvertIsScaling | backup/fair_mp.c:4031-4043 | the split multiplication is the exact scaled product modulo 2^64, and exact iff it fits |
| TimeScale.SysfsRoundTrip | backup/fair_mp.c:4107-4111 | a written value reads back nonzero iff at most 2^21; what is read is at least what was written, and writing it back keeps the multiplier |
| LoadAvg.DecayMono | backup/fair_mp.c:1166-1193 | decay_load is monotone in the value |
| LoadAvg.DecayStep | backup/fair_mp.c:1166-1193 | one more period never decays to more, across table wrap and cut-off |
| LoadAvg.DecayAntitone | backup/fair_mp.c:1166-1193 | decay_load is antitone in the number of periods |
| LoadAvg.DecaySuper | backup/fair_mp.c:1166-1193 | decaying two parts separately loses at least as much as decaying their sum |
| LoadAvg.ComputeRunnableContrib | backup/fair_mp.c:1202-1221 | the loop computes the contribution of n whole periods without overflowing 32 bits |
| LoadAvg.RollOverFits | backup/fair_mp.c:1202-1221 | a full history decayed over n + 1 periods plus the contribution of n periods is at most 47 * 1024 |
| LoadAvg.TableGeometric | backup/fair_mp.c:1166-1193 | each entry of the decay table is the one before times y, and 32 periods are a half |
| LoadAvg.SeriesCloses | backup/fair_mp.c:1202-1221 | the contribution of n periods and what n periods leave of the whole series make up the whole series within 4; from 345 periods on it is the maximum |
| LoadAvg.EveryRunBounded | backup/fair_mp.c:1334-1457 | every sequence of updates, with any clocks, keeps the period below 48 * 1024 and both sums at or below the period |
| LoadAvg.UpdateFeeds | backup/fair_mp.c:1334-1457 | one update: a sum does not grow if the time does not count for it, and stays full at full frequency if all of it does; usage stays within the runnable sum if only what is runnable runs |
| LoadAvg.SleepersFade | backup/fair_mp.c:1334-1457 | over every run, if nothing was runnable the runnable sum has not grown, if nothing was running the usage sum has not |
| LoadAvg.BusyStaysFull | backup/fair_mp.c:1334-1457 | over every run at full frequency, always runnable keeps the runnable sum equal to the period, always running the usage sum |
| LoadAvg.UsageWithinSum | backup/fair_mp.c:1334-1457 | over every run in which only what is runnable runs, usage stays within the runnable sum |
| LoadAvg.WithinPeriod | backup/fair_mp.c:1440-1454 | within one period the period grows by the time passed, the runnable sum by its scaled amount iff runnable, the usage sum iff running |
| LoadAvg.TimeCountedOnce | backup/fair_mp.c:1376-1438 | no time is counted twice or left out, and every period boundary that is crossed ages all three once |
| LoadAvg.TooSoon | backup/fair_mp.c:1354-1370 | a clock that went back is only noted; an update within 1024 ns changes nothing, so the time goes on counting |
| LoadAvg.ElapsedIs | backup/fair_mp.c:1350-1353 | the time passed is the difference of the clocks times the multiplier |
| LoadAvg.SchedAvg.Add | backup/fair_mp.c:1388-1404 | adds an amount to the period and, scaled, to the sums it counts for |
| LoadAvg.SchedAvg.Cross | backup/fair_mp.c:1380-1438 | crossing a period boundary: fill, age all three, add the whole periods |
| LoadAvg.SchedAvg.Run | backup/fair_mp.c:1334-1457 | the update for a known elapsed time, and when it reports a decay |
| LoadAvg.SchedAvg.RunKernel | backup/fair_mp.c:1334-1457 | the same with the arithmetic of the code, the contribution computed by the loop |
| LoadAvg.SchedAvg.Update | backup/fair_mp.c:1334-1457 | __update_entity_runnable_avg in place is the specified update |
| LoadAvg.RatioBounded | backup/fair_mp.c:1579-1581 | for every average that keeps the bound, hence in every run, load_avg_ratio is at most 1023 and its 32-bit product does not wrap |
| LoadAvg.ContribExactIff | backup/fair_mp.c:1570-1577 | load_avg_contrib is the exact quotient iff the product fits 32 bits |
| LoadAvg.SafeWeights | backup/fair_mp.c:1570-1577 | a weight gives the exact quotient for every average that keeps the bound, reached by a run or not, iff it is at most 87383 |
| LoadAvg.HeaviestTaskWraps | backup/fair_mp.c:1570-1577 | one long update gives the heaviest task a contribution of 686 instead of 88759 |
| LoadSums.StepAgrees | backup/fair_mp.c:1615-1650 | each tick, enqueue, dequeue, migration and decay keeps the sums right |
| LoadSums.EveryRunAgrees | backup/fair_mp.c:1696-1760 | in every reachable state runnable_load_avg is the sum of the contributions of the queued entities and a CPU's load_avg_ratio that of the ratios of its queued tasks; group ratios stay 0 and queued entities have no decays outstanding |
| LoadSums.EnqueueAgrees | backup/fair_mp.c:1696-1738 | enqueueing books exactly what the entity arrives with, on all decay_count paths |
| LoadSums.DequeueAgrees | backup/fair_mp.c:1745-1760 | dequeueing takes out exactly what was in the sums |
| LoadSums.MoveAgrees | backup/fair_mp.c:4529-4563 | a task off its queue changes queues without touching any sum |
| LoadSums.TickSets | backup/fair_mp.c:1615-1650 | a tick that computes averages gives the entity the new contribution and a task its new ratio; one within a period changes nothing |
| LoadSums.ArrivesWith | backup/fair_mp.c:1696-1738 | what an entity is taken in with on each decay_count path |
| LoadSums.LeavesWith | backup/fair_mp.c:1745-1760 | a sleeper leaves with the queue's decay counter, anything else with 0 |
| LoadSums.SleepAndWake | backup/fair_mp.c:1696-1760 | sleeping and waking with no period in between undoes itself; otherwise the entity comes back with the contribution decayed for the time asleep |
| LoadSums.MigratesWith | backup/fair_mp.c:4529-4563 | a sleeper that migrates carries the periods it slept, negated, and a contribution decayed for them |
| LoadSums.RatioAtMost | backup/fair_mp.c:1570-1650 | in every reachable state a CPU's load_avg_ratio is at most 1023 for each task queued there, with each ratio computed in 32 bits from averages that keep their bound |
| LoadSums.Loads.UpdateEntityLoadAvg | backup/fair_mp.c:1615-1650 | update_entity_load_avg in place keeps the sums right |
| LoadSums.Loads.EnqueueEntityLoadAvg | backup/fair_mp.c:1696-1738 | enqueue_entity_load_avg in place keeps the sums right |
| LoadSums.Loads.DequeueEntityLoadAvg | backup/fair_mp.c:1745-1760 | dequeue_entity_load_avg in place keeps the sums right |
| WeightedTime.InverseRounds | backup/fair_mp.c:207-216 | the inverse is 2^32 / w rounded down, never 0, and no weight counts as one |
| WeightedTime.LowBranch | backup/fair_mp.c:224-227 | the low branch never wraps and is within tmp/2^32 + 2^15/w + 1 of tmp/w |
| WeightedTime.PlainNear | backup/fair_mp.c:221-223 | the high branch without wrap-around is within the same error |
| WeightedTime.HighBranch | backup/fair_mp.c:221-223 | the high branch is within the error iff its second product does not wrap |
| WeightedTime.TopBranch | backup/fair_mp.c:221-223 | within 2^15 of 2^64 the first rounding wraps and the result is 0, within the error for the weight 2^32 - 1 only |
| WeightedTime.ScaleAccurate | backup/fair_mp.c:190-228 | for every u64 product, calc_delta_mine with a fresh inverse is within that error iff nothing wraps, or the weight is 2^32 - 1 and the product within 2^15 of 2^64 |
| WeightedTime.SlicesFillPeriod | backup/fair_mp.c:645-665 | the slices of n entities of a flat queue add up to the period within n single errors |
| WeightedTime.LoadWeight.constructor | backup/fair_mp.c:207-216 | a new weight has no cached inverse |
| WeightedTime.LoadWeight.Add | backup/fair_mp.c:1027-1029 | adding weight invalidates the cached inverse |
| WeightedTime.LoadWeight.Sub | backup/fair_mp.c:1040-1042 | taking weight out invalidates the cached inverse |
| WeightedTime.LoadWeight.CalcDeltaMine | backup/fair_mp.c:190-228 | a cached inverse gives what a fresh one would, within the error |
| Timeline.BeforeIsLess | backup/fair_mp.c:464-468 | in a window below 2^63 the wrapping difference is the real one, so entity_before is an order |
| Timeline.OrderIffWindowed | backup/fair_mp.c:464-468 | entity_before is asymmetric and transitive on a set of entities iff a window smaller than 2^63 holds them all |
| Timeline.WindowNeeded | backup/fair_mp.c:464-468 | three entities that no window holds can each be before the next |
| Timeline.DescendInserts | backup/fair_mp.c:499-533 | for any tree shape the descent inserts behind all not-greater entities, and never turning right means being before the whole list |
| Timeline.InsertKeepsLine | backup/fair_mp.c:499-533 | inserting keeps the line sorted and first come first served among equals |
| Timeline.EraseRemoves | backup/fair_mp.c:535-545 | erasing from the tree takes the entity out of the list |
| Timeline.EveryRunSound | backup/fair_mp.c:499-545 | over every sequence of enqueues, dequeues and rebalancings the tree is the list the same sequence makes, in line, with rb_leftmost on its head |
| Timeline.MinUpdate | backup/fair_mp.c:470-494 | min_vruntime never goes back, and in a window becomes the larger of itself and the least vruntime around |
| Timeline.PickFair | backup/fair_mp.c:2113-2143 | for every combination of buddies the pick is at most one granularity past the leftmost and everything queued, and the skip buddy runs only if nominated or alone in being fair |
| Timeline.PickPrefers | backup/fair_mp.c:2113-2143 | the order of preference, each if fair enough: next buddy, last buddy, whoever follows a skipped leftmost, leftmost |
| Timeline.CfsRq.constructor | backup/fair_mp.c:499-533 | an empty timeline is sound |
| Timeline.CfsRq.EnqueueEntity | backup/fair_mp.c:499-533 | the descent loop with rb_link_node and any rebalancing inserts into the list and keeps the cache |
| Timeline.CfsRq.DequeueEntity | backup/fair_mp.c:535-545 | __dequeue_entity takes out of the list and keeps the cache |
| Timeline.CfsRq.UpdateMinVruntime | backup/fair_mp.c:470-494 | update_min_vruntime in place |
| Timeline.CfsRq.PickNextEntity | backup/fair_mp.c:2113-2143 | pick_next_entity picks as specified and clears the picked buddies only |
| LoadBalance.Lowest | backup/fair_mp.c:5039-5046 | the first CPU of a mask |
| LoadBalance.PassOutcome | backup/fair_mp.c:5119-5189 | one move_tasks pass: tasks left and moved are a permutation of the list, moved ones may run there, the imbalance is charged what moved, at most 2 * I + 1 is moved, and what the flags mean |
| LoadBalance.PassThorough | backup/fair_mp.c:5119-5189 | the other half of a pass: only worthy tasks are moved, one if it stops at the first; a pass with time for the whole list that ends short of the imbalance leaves nothing it had a use for, and its flags say exactly whether what is left could run here or elsewhere in the group; a flag changes only for a reason on the list, and breaks come every 32 tasks |
| LoadBalance.SweepOvershoot | backup/fair_mp.c:5155-5180 | the imbalance never falls below its negative less one |
| LoadBalance.TurnOutcome | backup/fair_mp.c:6191-6246 | one turn: the imbalance is charged what moved, at most 2 * I + 1; a further turn has got further in the list or has lost a CPU of the pulling group from the mask |
| LoadBalance.RedirectHelps | backup/fair_mp.c:6222-6246 | another destination is one not tried before, and a task still on the list may run there |
| LoadBalance.PullOvershoot | backup/fair_mp.c:6191-6213 | all passes against one source together move at most 2 * I + 1, and nothing if I is not positive |
| LoadBalance.PullCost | backup/fair_mp.c:6191-6246 | the mask loses only CPUs of the pulling group, and each destination costs at most loop_max + 1 passes |
| LoadBalance.PullFlags | backup/fair_mp.c:6222-6246 | LBF_SOME_PINNED is never stale at redo |
| LoadBalance.PullEnds | backup/fair_mp.c:6210-6246 | pulling from a source ends only with a pass that took no break and reached the imbalance or knew of no other destination |
| LoadBalance.SourceOutcome | backup/fair_mp.c:6176-6262 | one source: restrained pulling, bounded passes, and the busiest CPU still in the mask when it is cleared |
| LoadBalance.SourceReasons | backup/fair_mp.c:6176-6262 | a source counts as not all pinned only if a task seen on it could run on the destination or elsewhere in the group |
| LoadBalance.RoundsBounded | backup/fair_mp.c:6156-6262 | load_balance terminates on every input within a bounded number of passes; a source with a single task is left alone, and every other is pulled from with restraint |
| LoadBalance.RoundsEnd | backup/fair_mp.c:6156-6262 | load_balance gives up only if something it saw could have run here, if nothing worth balancing is found, or if no CPU is left |
| LoadBalance.BudgetIsProduct | backup/fair_mp.c:6156-6262 | the bound on the passes in closed form |
| LoadBalance.Balancer.constructor | backup/fair_mp.c:6135-6152 | a fresh lb_env |
| LoadBalance.Balancer.CanMigrate | backup/fair_mp.c:5011-5050 | can_migrate_task up to the cache-hot check: the answer and the flags |
| LoadBalance.Balancer.MoveTasks | backup/fair_mp.c:5119-5189 | the loop of move_tasks is the specified pass |
| LoadBalance.Balancer.OnePass | backup/fair_mp.c:6191-6200 | one pass with what is on the queue then |
| LoadBalance.Balancer.TurnBack | backup/fair_mp.c:6210-6246 | the two ways back to more_balance: resuming after a break and switching to another destination CPU |
| LoadBalance.Balancer.PullAll | backup/fair_mp.c:6191-6246 | the loop behind more_balance is the specified pulling |
| LoadBalance.Balancer.Source | backup/fair_mp.c:6176-6246 | setting up and pulling from one source |
| LoadBalance.Balancer.Drop | backup/fair_mp.c:6251-6259 | clearing the busiest CPU from the mask |
| LoadBalance.Balancer.Balance | backup/fair_mp.c:6156-6262 | the loop behind redo is the specified sequence of rounds |
| ActiveMigration.HandshakeHolds | backup/fair_mp.c:6419-6498 | over every interleaving active_balance is set iff exactly one stopper is due, queued or running and it finds what it was set up with; references equal holders, among them stoppers that have dropped the lock and not yet put theirs, and are all gone when nothing is pending; every queued task is on exactly one list; no BUG_ON if no CPU is slower than itself |
| ActiveMigration.StopperDelivers | backup/fair_mp.c:6419-6498 | the stopper of a nomination, run to its end, takes the CPU from the nominated task if that is running, moves it to its target if still allowed, clears active_balance and then drops the reference |
| ActiveMigration.MoveArrives | backup/fair_mp.c:4967-4973 | a possible move puts the task on the other list only and leaves every other task alone |
| ActiveMigration.DirectDelivers | backup/fair_mp.c:7102-7158 | a direct move that ends has its task on the destination's list only, one reference less, and every other task unchanged |
| ActiveMigration.DirectRefused | backup/fair_mp.c:7102-7158 | if the task may not go, nobody moves and the reference is put all the same |
| ActiveMigration.NominationDelivers | backup/fair_mp.c:7166-7349 | a nomination, by hmp_force_up_migration or hmp_idle_pull, of a task that runs or not, starts a run that brings the task to the target with no reference left behind |
| ActiveMigration.OrdinaryFinishes | backup/fair_mp.c:6470-6477 | an ordinary stopper puts the task it chose on the target's list only and leaves every other task and all references alone |
| ActiveMigration.KickDelivers | backup/fair_mp.c:6275-6306 | active balancing of load_balance, run to its end, pulls a task that may go |
| ActiveMigration.StopperRefused | backup/fair_mp.c:6419-6498 | a stopper whose task may not go moves nobody and clears active_balance |
| ActiveMigration.StopperGivesUp | backup/fair_mp.c:6430-6446 | a stopper that finds a lone task, or its nominee gone, clears active_balance and moves nobody; one of HMP still owes its put |
| ActiveMigration.NominationGivesUp | backup/fair_mp.c:7112-7118 | a direct move that finds a lone task leaves tasks, references and pending moves as they were |
| ActiveMigration.PendingIsLeftAlone | backup/fair_mp.c:6297-6306 | while active_balance is set neither an idle pull nor a kick does anything |
| ActiveMigration.TaskSteps | backup/fair_mp.c:4967-4973 | a sleeper is on no list, a woken or balanced task on the list of its CPU only, and nobody else moves |
| ActiveMigration.MaskHolds | backup/fair_mp.c:5024-5024 | a new affinity mask holds at once, for pending moves too; with nowhere to go push_cpu names no CPU |
| ActiveMigration.StepStable | backup/fair_mp.c:6297-6306 | while active_balance stays set no step changes push_cpu or migrate_task |
| ActiveMigration.StepPlaced | backup/fair_mp.c:7055-7081 | every step keeps each queued task on its own CPU's list only, and moves tasks only to allowed CPUs |
| ActiveMigration.StepReferenced | backup/fair_mp.c:7102-7158 | every step keeps references equal to holders |
| ActiveMigration.StepShakes | backup/fair_mp.c:7166-7349 | every step keeps the handshake |
| ActiveMigration.StepNoBug | backup/fair_mp.c:7119-7127 | no step reaches a BUG_ON or sets a stopper up for its own CPU |
| ActiveMigration.DisjointNoSelf | backup/fair_mp.c:7119-7127 | with disjoint domains no CPU is in the domain slower than its own |
| ActiveMigration.SelfReachesBug | backup/fair_mp.c:7119-7127 | a CPU in its own slower domain can reach the BUG_ON of the direct move |
| ActiveMigration.EnterBugIff | backup/fair_mp.c:6446-6451 | a stopper that goes on hits its BUG_ON iff it is set up for its own CPU |
| ActiveMigration.SelfReachesStopperBug | backup/fair_mp.c:6446-6451 | a CPU in its own slower domain can reach the BUG_ON of the stopper as well |
| Thresholds.Ordered | backup/big_little_hmp.c:679-682 | without int overflow 0 <= down <= up <= 1023 |
| Thresholds.Quotients | backup/big_little_hmp.c:679-682 | each threshold is the rounded quotient of the documented formula, with its divisor |
| Thresholds.FreerBigPullsUp | backup/big_little_hmp.c:655-682 | less load on the big CPU lowers both thresholds |
| Thresholds.FreerLittlePullsDown | backup/big_little_hmp.c:655-682 | less load on the LITTLE CPU raises both thresholds |
| Thresholds.OverflowExample | backup/big_little_hmp.c:679-682 | past that the up threshold can exceed 1023 |
| Thresholds.NormalizedFits | backup/big_little_hmp.c:655-666 | capacities up to 1024 never overflow |
| Thresholds.NoPingPong | backup/big_little_hmp.c:2466-2577 | whenever no int overflows no load passes both tests, so a task is approved both ways only through an idle or low-priority shortcut |
| Thresholds.ThreeWays | backup/big_little_hmp.c:2466-2577 | without a shortcut a task goes up above the up threshold, down from the down threshold on, and stays in between; a shortcut overrides the load, and nothing a move that is not possible |
| Thresholds.ClbEnv.AdjThreshold | backup/big_little_hmp.c:628-688 | adj_threshold sets ordered thresholds in range whenever no int overflows |
| ThrottledClock.BooksFollowHistory | backup/fair_mp.c:2423-2451 | the clock's books equal the throttled and the free time of the history |
| ThrottledClock.UnthrottledReading | backup/fair_mp.c:2279-2285 | with no throttle in force the reading is the raw clock less exactly the union of the throttled intervals |
| ThrottledClock.ReadingsMonotone | backup/fair_mp.c:2279-2285 | unthrottled readings advance by exactly the unthrottled time between them |
| ThrottledClock.ThrottleJumps | backup/fair_mp.c:2279-2285 | beginning to throttle leaves the reading where it is iff nothing was lost before |
| ThrottledClock.ReadingSteps | backup/fair_mp.c:2279-2285 | how much each event moves the reading: the time passed when not throttled, ahead by the time lost at the first throttle, back by as much at the last unthrottle |
| ThrottledClock.NeverBackIff | backup/fair_mp.c:2279-2285 | along any run the reading, throttled or not, never goes back iff no throttled interval ends once time has been lost before |
| ThrottledClock.StepsBack | backup/fair_mp.c:2423-2451 | a run whose reading goes from 8 back to 1 |
| ThrottledClock.GroupQueue.ClockTask | backup/fair_mp.c:2279-2285 | cfs_rq_clock_task |
| ThrottledClock.GroupQueue.ThrottleDown | backup/fair_mp.c:2440-2451 | tg_throttle_down |
| ThrottledClock.GroupQueue.UnthrottleUp | backup/fair_mp.c:2423-2438 | tg_unthrottle_up |
| PartialCompletion.UpdateAccounts | 3.10/block/blk-core.c:2295-2399 | blk_update_request keeps __data_len the sum of the bios, takes min(n, total) bytes, ends the used-up bios once and in order, none in a flush sequence, and says false iff nothing remains |
| PartialCompletion.EveryBioEndsOnce | 3.10/block/blk-core.c:2295-2399 | however a request is cut up, each bio is ended exactly once in chain order by the time the pieces reach its length |
| PartialCompletion.BioEndsWith | 3.10/block/blk-core.c:155-171 | however a request is cut up, a bio ends with the error of the piece that reaches its end, else with success iff it was up to date and no piece that touched it reported an error, else with EIO |
| PartialCompletion.UpdateComposes | 3.10/block/blk-core.c:2343-2374 | completing a then b bytes with one error is completing a + b, iff the second call is not a stray error at a bio boundary |
| PartialCompletion.SectorComposes | 3.10/block/blk-core.c:2364-2378 | the sector agrees iff the pieces add up in whole sectors and the second does not finish the request past the first sector |
| PartialCompletion.StrayExample | 3.10/block/blk-core.c:155-171 | a second call with an error and no bytes leaves the next bio marked, one call with all the bytes does not |
| PartialCompletion.FinishingExample | 3.10/block/blk-core.c:2364-2378 | a concrete request that ends with sector 1 in two halves and with sector 0 at once |
| PartialCompletion.Req.UpdateRequest | 3.10/block/blk-core.c:2295-2399 | blk_update_request in place is the specified update, and a botched request cannot happen |
| PartialCompletion.Req.EndBios | 3.10/block/blk-core.c:2343-2359 | the loop over the bio chain with req_bio_endio is the specified walk, and counts the bytes |
| RequestList.LimitsSane | 3.10/block/blk-core.c:99-112 | the off threshold is at most the on threshold, and below it from two requests up |
| RequestList.LimitsShares | 3.10/block/blk-core.c:99-112 | congestion begins just above 7/8 of nr_requests and ends just below 13/16, and batchers may go half over |
| RequestList.AdmitSound | 3.10/block/blk-core.c:904-963 | the decision of __get_request keeps limits, full, congestion and totals |
| RequestList.GetGranted | 3.10/block/blk-core.c:918-959 | a request is granted iff the elevator does not refuse and there are fewer than nr_requests, or fewer than half as many again for batchers and those the elevator insists on |
| RequestList.GetStep | 3.10/block/blk-core.c:904-984 | granted, a Get adds one request on its way, with elevator data iff it wants some and the queue is not bypassed; refused, it leaves only the starved mark |
| RequestList.GrantedAndGone | 3.10/block/blk-core.c:904-1065 | a granted request that is freed, whose allocation fails, or that is freed after losing its elevator data, leaves all counters as they were |
| RequestList.StepLags | 3.10/block/blk-core.c:815-832 | at every step congestion is set from the on threshold up, cleared below the off threshold, and stays what it was in between |
| RequestList.FreedSound | 3.10/block/blk-core.c:815-853 | freed_request keeps limits, full, congestion and totals |
| RequestList.StepKeeps | 3.10/block/blk-core.c:904-1065 | every step, including both failure paths, keeps all the accounting |
| RequestList.EveryRunCounts | 3.10/block/blk-core.c:904-1065 | at every release of the lock: count at most 3 * nr_requests / 2, totals are sums, full iff count is at least nr_requests, starved only at count 0, root congestion follows the thresholds, elvpriv counts the requests that carry elevator data or are about to lose it |
| RequestList.DrainHolds | 3.10/block/blk-core.c:381-495 | once a bypass start has drained, no request carries elevator data until bypass mode ends |
| RequestList.BypassOnlyDrains | 3.10/block/blk-core.c:381-495 | from any start to the end of bypass mode the number of requests with elevator data never grows |
| RequestList.DepthCounts | 3.10/block/blk-core.c:462-495 | over every run bypass_depth is the number of starts less the number of ends, and bypass mode is on iff it is positive |
| RequestList.FirstStartPromise | 3.10/block/blk-core.c:462-479 | the start that finds depth 0 goes on draining with bypass mode on, and when it returns no request carries elevator data |
| RequestList.NestedStartReturnsEarly | 3.10/block/blk-core.c:462-479 | at every depth from 1 up some run lets a nested start return while a request still carries elevator data |
| RequestList.NestedStartPromise | 3.10/block/blk-core.c:452-479 | over all runs that lead to a given depth, a nested start returns with no request carrying elevator data iff the first start has finished its drain |
| RequestList.RequestQueue.constructor | 3.10/block/blk-core.c:99-112 | a new queue with its thresholds is sound |
| RequestList.RequestQueue.FreedOne | 3.10/block/blk-core.c:815-832 | __freed_request with the count taken down first |
| RequestList.RequestQueue.FreedRequest | 3.10/block/blk-core.c:838-853 | freed_request in place |
| RequestList.RequestQueue.Decide | 3.10/block/blk-core.c:918-963 | the nested checks of __get_request decide as specified |
| RequestList.RequestQueue.GetRequest | 3.10/block/blk-core.c:904-984 | __get_request up to the release of the lock |
| RequestList.RequestQueue.BypassStartQueue | 3.10/block/blk-core.c:462-469 | only the first start drains |
| RequestList.RequestQueue.BypassEndQueue | 3.10/block/blk-core.c:488-495 | only the last end leaves bypass mode |
| BlkgRegistry.RegistrySound | 3.10/block/blk-cgroup.c:161-275 | in every reachable state tree, blkcg list and queue list have the same members, hinted lookup is tree lookup, a member's parent stands behind it in the queue list, and each count is membership plus unreleased children plus request holders |
| BlkgRegistry.HintIsTree | 3.10/block/blk-cgroup.c:161-187 | hinted lookup is tree lookup |
| BlkgRegistry.FindSets | 3.10/block/blk-cgroup.c:161-187 | a lookup leaves the hint on what the tree has, and changes nothing else |
| BlkgRegistry.PutRestores | 3.10/block/blk-cgroup.h:277-283 | putting one reference too many makes all counts right again, however far up the releases run |
| BlkgRegistry.CreateKeeps | 3.10/block/blk-cgroup.c:213-275 | blkg_create keeps the registry sound on every path, and misses a parent only if it is missing |
| BlkgRegistry.CreateIff | 3.10/block/blk-cgroup.c:213-275 | blkg_create succeeds iff the cgroup is not gone, nothing fails, its parent has a blkg and it has none; a missing parent is reported iff there is one; otherwise nothing is left but a blkg released already, with all counts as before |
| BlkgRegistry.FillInKeeps | 3.10/block/blk-cgroup.c:291-327 | blkg_lookup_create keeps the registry sound, never meets a missing parent, and succeeds only for a cgroup that is not gone |
| BlkgRegistry.FillInSucceeds | 3.10/block/blk-cgroup.c:309-327 | without allocation failures it succeeds for every cgroup that is not gone |
| BlkgRegistry.FillInOnlyAncestors | 3.10/block/blk-cgroup.c:291-327 | blkg_lookup_create makes entries for the cgroup and its ancestors where they are missing and touches no other cgroup |
| BlkgRegistry.MissingShrinks | 3.10/block/blk-cgroup.c:309-327 | each turn of the outer loop leaves one ancestor less to create |
| BlkgRegistry.DestroyKeeps | 3.10/block/blk-cgroup.c:330-367 | blkg_destroy removes the blkg from all indexes and the hint and puts exactly the membership's reference |
| BlkgRegistry.HeadChildless | 3.10/block/blk-cgroup.c:375-387 | the head of the queue list has no member below it |
| BlkgRegistry.DestroyAllKeeps | 3.10/block/blk-cgroup.c:375-395 | blkg_destroy_all destroys children first and leaves no member |
| BlkgRegistry.OfflineChildless | 3.10/block/blk-cgroup.c:798-820 | a cgroup going offline has no member below it |
| BlkgRegistry.GoneForGood | 3.10/block/blk-cgroup.c:798-820 | over every run a cgroup that is being removed stays gone, and once it has no blkg nothing makes one for it again |
| BlkgRegistry.HoldKeeps | 3.10/block/blk-cgroup.h:297-325 | a request holder's reference keeps the counts right |
| BlkgRegistry.DropKeeps | 3.10/block/blk-cgroup.h:334-339 | dropping it keeps the counts right |
| BlkgRegistry.HoldThenDrop | 3.10/block/blk-cgroup.h:297-339 | a request holder takes one reference, and dropping it restores the registry |
| BlkgRegistry.StepKeeps | 3.10/block/blk-cgroup.c:291-419 | every operation keeps the registry sound |
| BlkgRegistry.NothingLeaks | 3.10/block/blk-cgroup.c:402-419 | with no members and no request holders every blkg ever made has been released |
| BlkgRegistry.TeardownReleases | 3.10/block/blk-cgroup.c:375-419 | tearing a queue down after any run leaves no member, and no blkg if no request is held |
| BlkgRegistry.Fresh | 3.10/block/blk-cgroup.c:161-187 | the registry of a new queue is empty and sound, with no cgroup gone |
| BlkgRegistry.Registry.constructor | 3.10/block/blk-cgroup.c:161-187 | a new registry is empty and sound |
| BlkgRegistry.Registry.Peek | 3.10/block/blk-cgroup.c:161-187 | __blkg_lookup without hint update finds the tree entry |
| BlkgRegistry.Registry.LookupBlkg | 3.10/block/blk-cgroup.c:161-187 | __blkg_lookup with hint update finds the tree entry and only moves the hint |
| BlkgRegistry.Registry.PutBlkg | 3.10/block/blk-cgroup.h:277-283 | blkg_put with its chain of releases, as a loop |
| BlkgRegistry.Registry.CreateBlkg | 3.10/block/blk-cgroup.c:213-275 | blkg_create with all error paths |
| BlkgRegistry.Registry.FindTop | 3.10/block/blk-cgroup.c:315-321 | the inner loop finds the topmost missing ancestor |
| BlkgRegistry.Registry.CreateChain | 3.10/block/blk-cgroup.c:313-327 | the outer loop terminates and creates the chain |
| BlkgRegistry.Registry.LookupCreate | 3.10/block/blk-cgroup.c:291-327 | looks up or creates, never meets a missing parent |
| BlkgRegistry.Registry.DestroyBlkg | 3.10/block/blk-cgroup.c:330-367 | blkg_destroy in place |
| BlkgRegistry.Registry.DestroyAllBlkgs | 3.10/block/blk-cgroup.c:375-395 | blkg_destroy_all in place leaves no member |

## Left out

- `backup/fair.c` and `backup/big_little_hmp.h` repeat the same scheduler; `backup/fair_mp.c` is the reference.
- CPU hotplug refill of quotas, infinite quota and changes of quota, period or group tree: they end the premises of conservation.
- NUMA scanning, statistics, tracing, sysfs text, keepalive timers and cpufreq notifiers: no deep property.
- Red-black colouring, radix tree internals, hrtimer, RCU, mempool and elevator internals are abstract.
- `blocked_load_avg`, `removed_load` and the task-group load averages: not part of the load sums.
- `hmp_select_cpu` and the choice of the offload target: any target in the slower domain is allowed.
- The cpu_power variant of `adj_threshold`: only the configuration with invariant CPU capacity is modelled.
- Nested `sched_slice`: the sum of slices is stated for a flat queue.
- Locks, interrupts and the waiting itself: protocols are modelled at the grain of lock sections; that a queued stopper eventually runs is assumed, not proved.
- The bio's own sector and vector (`bio_advance`), failfast flags, segment counts and I/O accounting of requests.
- The initial bypass mode of a queue that is still being set up: a queue is modelled from its end on, and an end of bypass mode belongs to a start that has returned.
- The io_context's batching state is an input of each `__get_request`, and waking waiters is not modelled.
- Bypassing queues in `blkg_lookup_create`: it returns an error and changes nothing.
- Policy data of blkgs, css reference counts and RCU freeing: css_tryget fails exactly for a cgroup that is gone.
- Thresholds.ClbEnv.AdjThreshold: requires that no int overflows, as normalized capacities guarantee (Thresholds.NormalizedFits); Thresholds.OverflowExample shows that otherwise the order can fail.
- LoadAvg.SafeWeights: ranges over all averages that keep the proved bound, not over those some run reaches.
- BandwidthOrder.EveryPassPays: is about passes that no thread and no other timer interrupts; interrupted passes are covered by what BandwidthProtocol proves of all runs.
- PartialCompletion.Req.UpdateRequest: sizes are unbounded numbers, so a request of 2^31 bytes or more is not modelled.
- ThrottledClock.ReadingsMonotone: the raw clock is assumed not to wrap.
