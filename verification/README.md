# A verified model of the round-robin scheduler

Dafny modules that model the modified Linux scheduler in `scheduler/round_robin` and prove what its
invariants, its `BUG_ON`s and its locking rules promise. Every module builds on one configuration of
the sources; `dafny verify dfyconfig.toml` checks them all.

| module | what it models | configuration |
|---|---|---|
| RtGroup, RtGroupOps, RtGroupPick, RtGroupRq | the RT class with groups: a tree of priority queues with bitmaps, cached best priorities and recursive task counts; enqueue, dequeue, throttle, release and pick; the policy is that of SCHED_FIFO and SCHED_RR in section 2.8.4 (Process Scheduling) of the System Interfaces volume of POSIX.1-2017 | `CONFIG_RT_GROUP_SCHED`, one CPU |
| CpuRatio | 64-bit words and `to_ratio`, against the real quotient | all |
| RtRuntime | CPUs lending RT runtime to each other and taking it back | SMP, no RT groups |
| RtThrottle | throttling and replenishment | one CPU, no RT groups |
| PushPull | the indexes behind push and pull balancing of RT tasks, and what push and pull achieve | SMP, no RT groups |
| TgWalk, TgBandwidth | the walk over the group tree and RT admission control on it | `CONFIG_RT_GROUP_SCHED` |
| DlBandwidth | the SCHED_DEADLINE bandwidth account of a root domain | SMP |
| TaskRqLock, TaskRqProgress | `task_rq_lock` against movers, wakers and sleepers, step by step; what it returns with, and that waiting and spinning never block each other for good | SMP |
| LockOrder | the order of pi locks, runqueue locks and the RT bandwidth locks | SMP, no RT groups |
| CircList, RoundRobin, Circular | the pointer ring, the circular class on it, and what a waiting task is promised | one CPU |
| SchedDomains | repartitioning the scheduling domains | SMP |
| Numa | NUMA level discovery and the masks kept under hotplug | `CONFIG_NUMA` |

Where a function of the sources updates fields in place, the model is a class with those fields and
methods in the same order of updates. Each such method is proved to compute a function on values
(`RtGroupRq.Rq` against RtGroupOps, `Circular.CircRq` and `Circular.Runqueue` against RoundRobin,
`RtRuntime.RootDomain` against `Borrow`, `Reclaim`, `Disable` and `Enable`), and the properties are
proved of that function and of whole runs; what the operation answers is stated again without the
function, in the method's contract or in a lemma about the function. Concurrent code is a state machine whose steps read or
write one thing at a time.

The predicates that say what is kept: `RtGroup.Valid` (every queue of the tree in order, queued groups
exactly the unthrottled non-empty ones, the runqueue count), `RtRuntime.Funded` (the enabled queues
hold exactly their number times the share), `PushPull.RqOk` and `Masked` (each index equals its
definition), `TgBandwidth.Sound` (each group's ratio covers its children's and stays within the
limit's), `DlBandwidth.Fits`, `TaskRqLock.Inv`, `LockOrder.Inv`, `RoundRobin.Ok`, `SchedDomains.Rebuilt`.

Four places where the sources do not do what one would expect; the model follows the code, and the
named members say exactly when:

- A write to the RT sysctl that the deadline check refuses has already changed the runtime of every
  CPU's queue (`scheduler/round_robin/core.c:7722-7738` runs before 7741-7775):
  RtRuntime.RootDomain.RtHandler and RtRuntime.RefusedWriteTripsBug; RtRuntime.RefusedWrite is a run in
  which the BUG_ON then fires.
- The deadline check of a new global limit compares the account of all CPUs with one CPU's share
  (`scheduler/round_robin/core.c:7764`), although its comment speaks of the allocated bandwidth:
  DlBandwidth.RootDomain.SetLimit; DlBandwidth.LimitRefused is a run.
- `to_ratio` shifts in 64 bits, so what has 2^44 ns of runtime or more is counted for less than it is:
  CpuRatio.RatioExact and CpuRatio.ShareBelow. Deadline tasks: DlBandwidth.WrappedTaskCountsNothing,
  DlBandwidth.WrappedTasksOverrun, and the run DlBandwidth.WrappedTasksEnter. RT groups:
  TgBandwidth.WrappedGroupSchedulable and the run TgBandwidth.WrappedGroupsEnter.
- An accepted write to the RT sysctl enables the queues of CPUs that are offline in the domain; one that
  others borrow from before it comes online gets its whole share again, and the money no longer adds up
  (`scheduler/round_robin/rt.c:766`): RtRuntime.RootDomain.EnableRuntime says when, and
  RtRuntime.OnlineAfterWrite is a run in which the BUG_ON then fires.

Assumptions: one root domain, which CPUs leave and join in RtRuntime; in RtRuntime.RunConserves a CPU's
RT queue is enabled only when it is disabled or holds its share; priority inheritance boosts nobody
(`rt_nr_boosted` is 0); the deadline class's `switched_from` hook calls `__dl_clear_params`;
`cpupri_find` answers allowed CPUs and a plist is a stable sorted list; locks are owned or free, timers
fire as steps, memory is sequentially consistent; building a domain succeeds.

## Model

| member | source | states |
|---|---|---|
| RtGroup.FindFirstBit | scheduler/round_robin/rt.c:1403-1414 | the answer is the least set bit from the given one on; with the delimiter bit set there always is one |
| RtGroup.InsertHolds | scheduler/round_robin/rt.c:1036-1044 | an entity added to its FIFO keeps a queue in order: each entity in the FIFO of its priority, bit set iff the FIFO is non-empty, best priority = least set bit, `rt_nr_running` = sum of the weights |
| RtGroup.DeleteHolds | scheduler/round_robin/rt.c:1048-1070 | taking an entity out keeps membership and the sum exact, for whatever priority it stood at |
| RtGroup.DeleteArrayOk | scheduler/round_robin/rt.c:1048-1070 | after a removal bitmap and cached best priority still agree with the FIFOs, also when the best FIFO ran empty or the queue did |
| RtGroup.NrBounds | scheduler/round_robin/rt.c:1115-1125 | a queue's count is never negative; it is zero iff nothing is queued and iff the cached best priority is the idle value |
| RtGroup.EnqueueOneKeepsInv | scheduler/round_robin/rt.c:1151-1174 | `__enqueue_rt_entity` keeps the invariant of all queues of the tree; a throttled or empty group stays off |
| RtGroup.DequeueOneKeepsInv | scheduler/round_robin/rt.c:1176-1186 | `__dequeue_rt_entity` keeps the invariant of all queues of the tree once nothing above the entity is queued |
| RtGroupOps.DequeueStackDrops | scheduler/round_robin/rt.c:1192-1207 | the top-down tear-down takes every entity of the chain off its FIFO, and touches no queue off the chain |
| RtGroupOps.EnqueueStackPlaces | scheduler/round_robin/rt.c:1214-1215 | the bottom-up rebuild puts back exactly the chain members that may run, at the head or tail of the FIFO of their new priority |
| RtGroupOps.RequeueIsEnqueue | scheduler/round_robin/rt.c:1219-1232 | the rebuild of a dequeue (groups with members only) does the same as that of an enqueue would: an empty group would stay off anyway |
| RtGroupOps.EnqueueEffect | scheduler/round_robin/rt.c:1209-1217 | for trees of any depth: the whole invariant holds afterwards, queued groups are exactly the unthrottled non-empty ones, `rq->nr_running` counts the tree iff `rt_queued`; the entity is queued iff it is a task or a runnable group; only FIFOs on its chain change, each in one place |
| RtGroupOps.DequeueEffect | scheduler/round_robin/rt.c:1219-1232 | the same for a removal; the entity is off afterwards unless it is a group that may run |
| RtGroupOps.TopIsCounted | scheduler/round_robin/rt.c:961-975 | `BUG_ON(!rq->nr_running)` never fires: a queued root queue has tasks, all counted, and without them the count is that of the other classes |
| RtGroupOps.ThrottleKeepsValid | scheduler/round_robin/rt.c:484-495 | throttling a queue at any level keeps the invariant and takes its group off and no task off any queue; if the group was queued, it and the groups above it move as in an operation on that chain and all other FIFOs stay, otherwise only the flag changes; a throttled top queue keeps its tasks and is not counted |
| RtGroupOps.UnthrottleKeepsValid | scheduler/round_robin/rt.c:463-482 | release keeps the invariant and puts the group back iff it has tasks; if it was off and has tasks, it and every queued group above it are then last in the FIFO of their priority and every queue off the chain keeps its record, otherwise only the flag changes; the top queue is counted iff it has tasks |
| RtGroupOps.ChainOfGroups | scheduler/round_robin/rt.c:1192-1207 | only groups stand between a queue and the top, so tearing down a group chain moves no task |
| RtGroupPick.BestIsLeast | scheduler/round_robin/rt.c:862-872 | a queued entity with no throttled group above it has all its groups queued, and the top queue's cached best priority is at most its priority value |
| RtGroupPick.PickStep | scheduler/round_robin/rt.c:1403-1418 | at each level of the descent neither BUG_ON fires: a first bit is found, an entity of that priority stands there, and it is a task or an unthrottled group with tasks, strictly further down |
| RtGroupPick.PickIsBest | scheduler/round_robin/rt.c:1420-1437 | whenever the top queue is queued the descent ends in a task; its priority value is the least among all tasks whose every enclosing group is unthrottled |
| RtGroupPick.PickIsFirst | scheduler/round_robin/rt.c:1403-1437 | within one priority the order is first in, first out at every level: the task picked and all groups around it head their FIFOs |
| RtGroupPick.NrCountsTasks | scheduler/round_robin/rt.c:1115-1148 | `rt_nr_running` is the number of tasks queued on the queue or anywhere below it |
| RtGroupRq.Rq.EnqueueOne | scheduler/round_robin/rt.c:1151-1174 | the field updates compute exactly the enqueue step and the state stays sound |
| RtGroupRq.Rq.DequeueOne | scheduler/round_robin/rt.c:1176-1186 | the field updates compute exactly the dequeue step |
| RtGroupRq.Rq.LinkBack | scheduler/round_robin/rt.c:1196-1199 | the loop over the parents leaves a trail of back pointers from the top entity of the chain down to the entity, and ends |
| RtGroupRq.Rq.WalkDown | scheduler/round_robin/rt.c:1203-1206 | following the back pointers takes the chain off top-down, as the recursive definition does |
| RtGroupRq.Rq.DequeueChain | scheduler/round_robin/rt.c:1192-1207 | `dequeue_rt_stack` = the top count taken out, then the chain torn down |
| RtGroupRq.Rq.EnqueueEntity | scheduler/round_robin/rt.c:1209-1217 | the two loops compute the rebuilt state whose effect EnqueueEffect states |
| RtGroupRq.Rq.DequeueEntity | scheduler/round_robin/rt.c:1219-1232 | the two loops compute the state whose effect DequeueEffect states |
| RtGroupRq.Rq.EnqueueTask | scheduler/round_robin/rt.c:1237-1249 | the task is queued afterwards at the head or tail of its priority, no other task moves, the invariant holds |
| RtGroupRq.Rq.DequeueTask | scheduler/round_robin/rt.c:1251-1259 | the task is off afterwards, no other task moves, the invariant holds |
| RtGroupRq.Rq.ThrottleQueue | scheduler/round_robin/rt.c:930-933 | flag and dequeue together keep the invariant; what moves is what ThrottleKeepsValid says, no task leaves its queue |
| RtGroupRq.Rq.UnthrottleQueue | scheduler/round_robin/rt.c:827-856 | flag and enqueue together keep the invariant; a group that comes back is last in the FIFO of its priority, as is every queued group above it; if it was on or has no tasks only the flag changes |
| RtGroupRq.Rq.DequeueTopRtRq | scheduler/round_robin/rt.c:961-975 | `rq->nr_running` loses the root count iff `rt_queued` |
| RtGroupRq.Rq.EnqueueTopRtRq | scheduler/round_robin/rt.c:977-991 | `rq->nr_running` gains the root count iff the queue becomes queued |
| RtGroupRq.Rq.PickNextTask | scheduler/round_robin/rt.c:1420-1437 | the do-while loop ends and returns an eligible task that no eligible task beats; it and all groups around it head their FIFOs |
| RtGroupRq.Rq.SetPriority | scheduler/round_robin/core.c:3577-3677 | with policy and priority unchanged nothing happens; otherwise a queued task leaves its FIFO and joins the one of its new priority, at the head if it did not become more important and else at the tail; all other FIFOs of the queue and the set of queued tasks stay; off its chain of groups no FIFO changes; the invariant holds |
| RtGroupRq.Rq.MoveTask | scheduler/round_robin/core.c:7480-7521 | the same tasks stay queued, a queued task leaves its old queue and ends at the tail of its priority in the new group; off the two chains of groups no FIFO changes; the invariant holds |
| RtGroupRq.Rq.AddGroup | scheduler/round_robin/rt.c:142-167 | a new group has an unthrottled queue with nothing on it, all other queues stay, and the invariant holds |
| RtGroupRq.Rq.AddTask | scheduler/round_robin/rt.c:1237-1249 | a new task, not queued yet, keeps the invariant |
| RtGroupRq.Rq.BeginChange | scheduler/round_robin/core.c:3659-3664 | the first half of the bracket: off its queue by a dequeue step if it was on one, nothing at all otherwise; nobody else moved |
| RtGroupRq.Rq.EndChange | scheduler/round_robin/core.c:3672-3677 | the second half: back by an enqueue step at the given end iff it was queued before, nothing at all otherwise; nobody else moved |
| RtGroupRq.Rq.RtSePrio | scheduler/round_robin/rt.c:862-872 | read off the fields, it is the priority of the value model |
| RtGroupRq.Rq.RtSeNrRunning | scheduler/round_robin/rt.c:1115-1125 | read off the fields, it is the weight of the value model |
| RtGroupRq.Rq.constructor | scheduler/round_robin/rt.c:62-89 | an empty runqueue, unthrottled and uncounted, satisfies the invariant |
| CpuRatio.RatioBound | scheduler/round_robin/core.c:2006-2020 | with runtime within the period, or infinite, the ratio is at most one CPU, in spite of the 64-bit shift |
| CpuRatio.RatioExact | scheduler/round_robin/core.c:2006-2020 | the ratio is the rounded quotient iff the runtime is below 2^44 ns |
| CpuRatio.WrappedIsZero | scheduler/round_robin/core.c:2006-2020 | a runtime that is a multiple of 2^44 ns has the ratio 0, whatever the period |
| CpuRatio.ShareBelow | scheduler/round_robin/core.c:2006-2020 | the part of a CPU that the runtime really is, is below (ratio + 1)/2^20 iff the runtime is below 2^44 ns or infinite |
| CpuRatio.RatioBelow | scheduler/round_robin/core.c:2006-2020 | the ratio never tells more than there is, wrapped or not |
| RtRuntime.LoanConserves | scheduler/round_robin/rt.c:646-651 | one loan leaves the sum of the enabled queues' runtime at (number enabled) x share, and which are enabled |
| RtRuntime.LoanBounds | scheduler/round_robin/rt.c:645-650 | a loan is at most a 1/weight part of the spare time, weight being the number of CPUs of the root domain, and never takes the borrower above the period |
| RtRuntime.LoanIsMost | scheduler/round_robin/rt.c:645-650 | a loan is the largest amount that is at most a 1/weight part of the spare time and does not pass the period |
| RtRuntime.BorrowConserves | scheduler/round_robin/rt.c:613-662 | a whole round of borrowing, whatever the weight, conserves the sum; a lender keeps what it has used; the borrower ends between its old runtime and the period |
| RtRuntime.BorrowIsRound | scheduler/round_robin/rt.c:613-662 | a round of borrowing, stated without the loop: every CPU gives its whole part while the borrower is short of the period; either all were asked and the borrower has gained exactly the parts, or one CPU gave just what was missing and those behind it kept what they had |
| RtRuntime.ReclaimSatisfied | scheduler/round_robin/rt.c:702-727 | the greedy reclaim ends with nothing wanted iff the other enabled queues hold enough or, when a surplus is handed back, iff there is any |
| RtRuntime.ReclaimMoves | scheduler/round_robin/rt.c:702-727 | what the reclaim takes from others is exactly what it stops wanting |
| RtRuntime.ReclaimInTurn | scheduler/round_robin/rt.c:702-727 | who pays: the CPUs in turn, each down to zero before the next one pays anything; what is too much goes to the first one alone; nobody else changes |
| RtRuntime.ReclaimEnds | scheduler/round_robin/rt.c:696-734 | with the money conserved, `BUG_ON(want)` cannot fire |
| RtRuntime.DisableConserves | scheduler/round_robin/rt.c:668-748 | a CPU going offline leaves the remaining queues with exactly their shares |
| RtRuntime.EnableConserves | scheduler/round_robin/rt.c:750-772 | enabling conserves the sum iff the queue was disabled or held exactly its share |
| RtRuntime.RunConserves | scheduler/round_robin/rt.c:613-772 | over any run of accounting, balancing in a domain of any weight, disabling, enabling and accepted sysctl writes, the sum is conserved for the share in force and no disable is left wanting |
| RtRuntime.StepConserves | scheduler/round_robin/rt.c:613-772 | each such step keeps the sum at (number enabled) x share, also a write that enables all queues of the domain with the new share |
| RtRuntime.TripsExactly | scheduler/round_robin/rt.c:685-734 | whatever the queues hold: disabling a CPU trips the BUG_ON iff its queue is enabled, differs from the share, and either misses something while all queues together hold less than this one share, or holds too much and is alone |
| RtRuntime.RefusedWriteTripsBug | scheduler/round_robin/core.c:7722-7738 | when all enabled queues hold a runtime x and the share, finite or not, was put back, disabling a CPU trips the BUG_ON iff x differs from the share and there is one such queue, or the share is finite and above the total of them |
| RtRuntime.RefusedWriteStays | scheduler/round_robin/core.c:7722-7738 | accounting and borrowing after a refused write keep the sum at what the write made it and the same queues enabled |
| RtRuntime.RefusedRunTripsBug | scheduler/round_robin/core.c:7722-7738 | so after any such run, disabling a CPU trips the BUG_ON exactly in the cases of TripsExactly, with that sum |
| RtRuntime.RootDomain.DoBalanceRuntime | scheduler/round_robin/rt.c:613-662 | the round over the span in 64-bit arithmetic: if the borrower is still short of the period, every other enabled CPU of the span with something to spare has given the span-size-th part of it, all others kept what they had, and the borrower gained exactly the sum; if it is not, BorrowIsRound says who gave what; queues outside the span stay; reports whether any CPU had something to spare |
| RtRuntime.RootDomain.LendAround | scheduler/round_robin/rt.c:628-658 | its loop computes the round, queues outside the span stay |
| RtRuntime.RootDomain.BorrowFrom | scheduler/round_robin/rt.c:628-658 | one turn of that loop lends iff the CPU has something to spare, and then moves exactly the loan |
| RtRuntime.RootDomain.constructor | scheduler/round_robin/core.c:7817-7821 | all queues start with the share: the money is there |
| RtRuntime.RootDomain.TakeLoan | scheduler/round_robin/rt.c:646-651 | the wrapped 64-bit updates are exact on conserved states |
| RtRuntime.RootDomain.DisableRuntime | scheduler/round_robin/rt.c:668-748 | in valid states, and in all others in which nothing is left wanting, the BUG_ON holds where it stands; the queue ends infinite and unthrottled, what was lent is back; a valid state stays valid |
| RtRuntime.RootDomain.ReclaimRuntime | scheduler/round_robin/rt.c:702-727 | the loop over the span with its signed and unsigned conversions computes the greedy reclaim |
| RtRuntime.RootDomain.ReclaimFrom | scheduler/round_robin/rt.c:711-722 | one turn of that loop moves exactly what want loses |
| RtRuntime.RootDomain.TakeBack | scheduler/round_robin/rt.c:685-734 | in any state that fits 64 bits: the queues after the reclaim and what is left of want, non-zero exactly if the BUG_ON fires |
| RtRuntime.RootDomain.EnableRuntime | scheduler/round_robin/rt.c:750-772 | the queue comes back with the share, no time used, not throttled; the invariant survives iff it was disabled or held its share |
| RtRuntime.RootDomain.Detach | scheduler/round_robin/core.c:5595-5608 | a CPU that leaves the root domain leaves the others with exactly their shares; the span, and so the divisor of every loan, is smaller by one |
| RtRuntime.RootDomain.Attach | scheduler/round_robin/core.c:5619-5624 | a CPU that joins it, active or not, keeps the invariant |
| RtRuntime.RootDomain.RtHandler | scheduler/round_robin/core.c:7823-7862 | accepted iff valid and the deadline account is within the new ratio; an invalid write changes nothing; a valid write that the deadline check refuses leaves every queue with the refused share under the old values, which keeps the invariant iff that share is the old one or infinite; and exactly when the next CPU to go offline then trips the BUG_ON |
| RtRuntime.RefusedWrite | scheduler/round_robin/core.c:7823-7862 | a run: two CPUs with the default limit, a write refused because of a deadline task, and the BUG_ON fires when CPU 0 goes offline |
| RtRuntime.OnlineAfterWrite | scheduler/round_robin/rt.c:750-772 | a run: a write accepted while a CPU of the domain is offline enables its queue, another CPU borrows from it, it comes online with the whole share, and the last CPU to go offline trips the BUG_ON |
| CircList.RingInsert | scheduler/round_robin/circlist.c:6-23 | linking one node in keeps next and prev inverse over exactly the listed nodes |
| CircList.RingRemove | scheduler/round_robin/circlist.c:48-57 | unlinking one node keeps next and prev inverse over exactly the remaining nodes |
| CircList.InsertedPlace | scheduler/round_robin/circlist.c:6-23 | where an insertion puts the node: directly before the given one in the ring, with the head still the head and all others in their order |
| CircList.CircularList.Insert | scheduler/round_robin/circlist.c:6-23 | the sequence gains exactly the new node, in front of the given one; in front of `head` means at the tail, and an empty list takes it as its head |
| CircList.CircularList.Link | scheduler/round_robin/circlist.c:10-22 | the three-way pointer update realises that insertion for any member of the ring |
| CircList.CircularList.Remove | scheduler/round_robin/circlist.c:25-58 | the unbounded search ends for any member and exactly that node goes |
| CircList.CircularList.Unlink | scheduler/round_robin/circlist.c:40-57 | the found node goes; head moves on iff it was the head, and becomes null iff the list empties |
| CircList.CircularList.Traverse | scheduler/round_robin/circlist.c:60-76 | the do-while loop ends after exactly `count` nodes, in order |
| CircList.CircularList.constructor | scheduler/round_robin/circlist.c:16-21 | an empty list is a ring of no nodes |
| RoundRobin.HooksKeepOk | scheduler/round_robin/circular.c:54-169 | each hook keeps: the ring holds exactly the queued entities other than curr, each once |
| RoundRobin.ChangeKeepsOk | scheduler/round_robin/core.c:3659-3677 | the bracket that changes class, priority or group keeps the invariant for every combination of queued, running and old and new class; the task stays queued iff it was, nobody else moves, and it goes to the tail iff it waits |
| RoundRobin.NormalizeKeepsOk | scheduler/round_robin/core.c:7277-7306 | without the put_prev/set_curr pair the invariant survives iff the normalized task does not run or was of this class already |
| RoundRobin.NormalizeLinksTwice | scheduler/round_robin/core.c:7277-7306 | for a running, queued task of another class the next put_prev links the entity a second time |
| RoundRobin.StepKeepsOk | scheduler/round_robin/circular.c:269-339 | every legal step of the runqueue keeps the invariant |
| RoundRobin.CircularStep | scheduler/round_robin/circular.c:289-339 | a pick takes the head of the ring, after putting the previous task at the tail |
| RoundRobin.BoundedWaiting | scheduler/round_robin/circular.c:34-93 | a task with k tasks ahead is picked no later than the (k+1)-th pick of this class, whatever other tasks arrive, leave, switch class or are preempted |
| RoundRobin.RoundRobinTurns | scheduler/round_robin/circular.c:289-339 | with a fixed set of n runnable tasks, any n picks in a row choose each exactly once, in ring order |
| Circular.CircRq.EnqueueNode | scheduler/round_robin/circular.c:54-61 | the node goes to the tail |
| Circular.CircRq.EnqueueEntity | scheduler/round_robin/circular.c:86-94 | count and on_rq change with the ring; the running entity stays out of the ring |
| Circular.CircRq.EnqueueTask | scheduler/round_robin/circular.c:96-130 | ring, counters and on_rq follow the enqueue step; the runqueue count stays right iff the task was not queued already |
| Circular.CircRq.DequeueEntity | scheduler/round_robin/circular.c:142-149 | exactly this entity leaves the ring |
| Circular.CircRq.DequeueTask | scheduler/round_robin/circular.c:151-169 | ring and all three counters follow the dequeue step and agree with the number of on_rq entities |
| Circular.CircRq.PutPrevTask | scheduler/round_robin/circular.c:72-84 | the task that ran goes to the tail iff it is still queued |
| Circular.CircRq.SetNextEntity | scheduler/round_robin/circular.c:269-287 | the running task is kept out of the ring |
| Circular.CircRq.PickNextTask | scheduler/round_robin/circular.c:289-339 | computes the pick step, including the case without queued tasks |
| Circular.CircRq.constructor | scheduler/round_robin/circular.c:54-61 | an empty queue satisfies the invariant |
| Circular.CircRq.SetMember | scheduler/round_robin/core.c:3379-3384 | a task that is neither queued nor running enters or leaves the class without a trace in the ring |
| Circular.Runqueue.constructor | scheduler/round_robin/core.c:4670-4709 | with nothing but the idle task, which is of another class and not counted, the invariant holds |
| Circular.Runqueue.Fork | scheduler/round_robin/core.c:1832-1856 | a new task of this class or another disturbs nothing: it is not queued |
| Circular.Runqueue.Change | scheduler/round_robin/core.c:3659-3677 | the bracket on the pointer ring, hook by hook, computes the bracket of RoundRobin.ChangeKeepsOk, keeps the invariant and leaves the runqueue count as it was |
| Circular.Runqueue.DequeueTask | scheduler/round_robin/core.c:3659-3662 | through the task's class: off the ring or off the other class, one less counted |
| Circular.Runqueue.PutPrevTask | scheduler/round_robin/core.c:3663-3664 | through the task's class: a running task of this class is no longer curr |
| Circular.Runqueue.SetClass | scheduler/round_robin/core.c:3379-3384 | the task changes class while it is neither queued nor curr: the ring and the counts stay |
| Circular.Runqueue.SetCurrTask | scheduler/round_robin/core.c:3669-3670 | through the new class: a running task is curr and not in the ring |
| Circular.Runqueue.EnqueueTask | scheduler/round_robin/core.c:3671-3677 | through the new class: on the ring or on the other class, one more counted |
| TgWalk.WalkVisits | scheduler/round_robin/core.c:783-812 | a walk makes the undisturbed visits in order up to the first non-zero answer, and all of them if there is none |
| TgWalk.VisitsOnce | scheduler/round_robin/core.c:783-812 | the visits enter and leave every group of the subtree exactly once and no other group |
| TgWalk.VisitsInTurn | scheduler/round_robin/core.c:783-812 | the order: a group is entered before its children and left after them, and a child is left before the next one of the list is entered, for every group below the start |
| TgWalk.WalkStops | scheduler/round_robin/core.c:783-812 | for visitors that see all earlier visits: a walk makes no visit after the first non-zero answer, down or up, and returns that answer |
| TgWalk.BelowSplit | scheduler/round_robin/core.c:793-799 | a group is below g iff it is g or below one of g's children |
| TgWalk.BelowUnique | scheduler/round_robin/core.c:793-799 | a group is below at most one group of each level |
| TgWalk.NextSibling | scheduler/round_robin/core.c:793-799 | the entry behind the given one in the list |
| TgWalk.WalkTgTreeFrom | scheduler/round_robin/core.c:783-812 | the goto loop ends on every finite tree with exactly the visits and the result of the recursive walk |
| TgBandwidth.TgRtSchedulable | scheduler/round_robin/core.c:7548-7602 | the accumulating loop returns the verdict on one group: -EBUSY iff RT tasks would be left without runtime while the limit is on; 0 iff not that, the runtime within the period or infinite, the ratio at most the limit's and at least the children's sum; -EINVAL else |
| TgBandwidth.SumExact | scheduler/round_robin/core.c:7586-7597 | the unsigned long sum is the true sum as long as each ratio is at most one CPU |
| TgBandwidth.WalkAccepts | scheduler/round_robin/core.c:7604-7619 | a walk with this visitor returns 0 iff it accepts every group of the subtree, and otherwise the verdict on one of them |
| TgBandwidth.VerdictsAgree | scheduler/round_robin/core.c:7548-7602 | all verdicts are 0 iff no group has more than its period or starves RT tasks, no to_ratio value exceeds the limit's, and none is smaller than the exact sum of its children's; none of the sums wraps, whereas a ratio may |
| TgBandwidth.RtSchedulable | scheduler/round_robin/core.c:7604-7619 | accepts a proposal iff it is schedulable in that sense, by ratios; otherwise returns the verdict on the first group refused, in the order of the walk |
| TgBandwidth.GrantKeepsSound | scheduler/round_robin/core.c:7621-7649 | granting an accepted request keeps every to_ratio value at least the sum of its children's and at most the global limit's, and every runtime within its period |
| TgBandwidth.LimitKeepsSound | scheduler/round_robin/core.c:7699-7710 | so does changing the global limit after the check |
| TgBandwidth.CreateKeepsSound | scheduler/round_robin/core.c:7410-7444 | so does a new group, with no runtime |
| TgBandwidth.DestroyKeepsSound | scheduler/round_robin/core.c:7460-7473 | so does removing a group |
| TgBandwidth.AntichainFits | scheduler/round_robin/core.c:7586-7597 | the ratios of any groups below g, none containing another, sum to at most g's ratio |
| TgBandwidth.NeverOvercommitted | scheduler/round_robin/core.c:7580-7584 | hence to at most the root's ratio, the limit's, and one CPU's |
| TgBandwidth.TimeFits | scheduler/round_robin/core.c:7586-7597 | with runtimes below 2^44 ns or infinite, the real shares runtime/period of n >= 1 groups below g, none containing another, sum to less than g's real share plus n/2^20 |
| TgBandwidth.TimeNeverOvercommitted | scheduler/round_robin/core.c:7580-7584 | hence to less than R/P + n/2^20 |
| TgBandwidth.WrappedGroupSchedulable | scheduler/round_robin/core.c:7548-7602 | a group without children can be given any runtime that is a multiple of 2^44 ns, up to its period, in any sound tree and under any limit; its ratio is then 0 |
| TgBandwidth.WrappedGroupsEnter | scheduler/round_robin/core.c:7651-7686 | a run: any number n of new groups get a period of 2^41 us and a runtime of as much, under any limit, and really have n CPUs together |
| TgBandwidth.TaskGroups.constructor | scheduler/round_robin/core.c:7826-7832 | a lone root group with the global values is sound |
| TgBandwidth.TaskGroups.SetRtBandwidth | scheduler/round_robin/core.c:7621-7649 | accepted iff schedulable; then this group and all its queues have the new values and nothing else changes, otherwise nothing does |
| TgBandwidth.TaskGroups.SetRtRuntime | scheduler/round_robin/core.c:7651-7661 | microseconds are converted in 64 bits, a negative value means no limit; granted iff schedulable |
| TgBandwidth.TaskGroups.SetRtPeriod | scheduler/round_robin/core.c:7675-7686 | the same for the period, of which 0 is refused |
| TgBandwidth.TaskGroups.SetLimit | scheduler/round_robin/core.c:7823-7862 | accepted iff valid, schedulable under the new limit and the deadline check agrees; otherwise the old limit is restored |
| TgBandwidth.TaskGroups.CreateGroup | scheduler/round_robin/core.c:7410-7444 | the new group heads its parent's list, with no children, no runtime and the default period; all others stay; the tree stays sound |
| TgBandwidth.TaskGroups.DestroyGroup | scheduler/round_robin/core.c:7460-7473 | the group is gone from tree and lists, all others keep their values and order; the tree stays sound |
| TaskRqLock.OthersKeep | scheduler/round_robin/core.c:332-352 | what a thread relies on is not disturbed by another thread's step that writes under the pi lock or the lock of the task's current queue |
| TaskRqLock.CarrierLocks | scheduler/round_robin/core.c:4723-4743 | a thread in the middle of moving, waking or requeueing a queued task holds the lock of its CPU's queue |
| TaskRqLock.OnLockedQueue | scheduler/round_robin/rt.c:1646-1664 | a task found on a locked queue is QUEUED, on its own CPU's queue, and in nobody's hands: the BUG_ONs of pick_next_pushable_task |
| TaskRqLock.HeldNotCarried | scheduler/round_robin/core.c:332-352 | what task_rq_lock returned with, if queued, nobody else is changing |
| TaskRqLock.ContinueKeeps | scheduler/round_robin/core.c:310-365 | every step of the lockers, movers, wakers and sleepers keeps the invariant, and writes CPU, flag or place only under the pi lock or the lock of the task's current queue |
| TaskRqLock.DoKeeps | scheduler/round_robin/core.c:310-365 | so does every step a thread can choose |
| TaskRqLock.RunKeeps | scheduler/round_robin/core.c:310-365 | so does every schedule of any threads |
| TaskRqLock.LockReturnsRight | scheduler/round_robin/core.c:332-352 | in every reachable state a returned task_rq_lock holds both locks, the queue is the task's, the task is not migrating, and it is on that queue iff it is QUEUED |
| TaskRqLock.LockReturns | scheduler/round_robin/core.c:332-352 | unopposed, task_rq_lock returns after one round with the queue of the task's CPU |
| TaskRqLock.HeldIsStable | scheduler/round_robin/core.c:332-365 | no step of another thread changes the task's CPU, flag or place while the locks are held |
| TaskRqLock.HeldUntilUnlock | scheduler/round_robin/core.c:332-365 | nor does any number of them |
| TaskRqLock.SettledWhenUnlocked | scheduler/round_robin/core.c:4723-4743 | with its pi lock and its queue's lock free and not migrating, a QUEUED task is on exactly its CPU's queue, any other on none |
| TaskRqLock.MoveArrives | scheduler/round_robin/core.c:4734-4737 | `BUG_ON(task_cpu(p) != new_cpu)` in move_queued_task never fires |
| TaskRqProgress.OwnedKeeps | scheduler/round_robin/core.c:310-365 | a lock is recorded only for the thread that holds it where it stands, after every step |
| TaskRqProgress.SpinnerHasMover | scheduler/round_robin/core.c:310-352 | in every reachable state a thread that spins on a migrating task, with or without its pi lock, waits for another thread that is in the middle of moving it |
| TaskRqProgress.WaitsBehind | scheduler/round_robin/core.c:310-352 | who waits for a pi lock, spins, waits for a runqueue lock, or for a second one, always waits for a thread further on in this order, of two of the last kind the one with the higher lock |
| TaskRqProgress.NoWaitCycle | scheduler/round_robin/core.c:310-352 | in every reachable state no threads wait for each other in a cycle, over locks and spinning together |
| TaskRqProgress.SomeoneMoves | scheduler/round_robin/core.c:310-352 | in every reachable state with a thread that is not idle some such thread can take a step |
| LockOrder.StepKeeps | scheduler/round_robin/sched.h:1358-1488 | ordered code stays ordered and no lock ever has two holders |
| LockOrder.ChainGoesUp | scheduler/round_robin/sched.h:1454-1477 | along threads that wait for each other the locks wanted go up in the order |
| LockOrder.NoWaitCycle | scheduler/round_robin/sched.h:1454-1477 | so there is no cycle of waiting threads |
| LockOrder.SomeoneMoves | scheduler/round_robin/sched.h:1454-1477 | while some thread is not done, some thread can take a step |
| LockOrder.DoubleRqLockOrdered | scheduler/round_robin/sched.h:1454-1477 | locking two runqueues by address keeps the order, also if they are the same |
| LockOrder.DoubleLockBalanceOrdered | scheduler/round_robin/sched.h:1358-1398 | both variants, with the trylock and the drop-and-retake, keep the order and end with both locked |
| LockOrder.BalanceRuntimeOrdered | scheduler/round_robin/rt.c:774-788 | dropping the queue's runtime lock before taking the bandwidth lock and retaking it keeps the order |
| LockOrder.DoWorkOrdered | scheduler/round_robin/rt.c:936-959 | accounting under runqueue locks, with borrowing and timer start, keeps the order |
| LockOrder.BalanceOrdered | scheduler/round_robin/rt.c:1671-1840 | so do the loops of pull_rt_task and push_rt_tasks |
| LockOrder.TaskRqLockOrdered | scheduler/round_robin/core.c:332-365 | so do task_rq_lock's retries |
| LockOrder.MigrateSwapOrdered | scheduler/round_robin/core.c:1131-1169 | so do two pi locks and two runqueue locks taken together |
| LockOrder.MigrationOrdered | scheduler/round_robin/core.c:4723-4862 | so does changing the runqueue lock under the pi lock |
| LockOrder.WakeUpOrdered | scheduler/round_robin/core.c:1695-1752 | so does try_to_wake_up, with the push loop of task_woken under the local or the remote runqueue lock |
| LockOrder.TakeTurnOrdered | scheduler/round_robin/core.c:1506-1540 | so does activating a task and pushing from its runqueue afterwards |
| LockOrder.PendingOrdered | scheduler/round_robin/core.c:1567-1586 | so does sched_ttwu_pending, for a list of any length |
| LockOrder.WakeLocalOrdered | scheduler/round_robin/core.c:1760-1786 | so does try_to_wake_up_local, whose pi lock below a runqueue lock is taken by trylock only, with its activation and push loop |
| LockOrder.RuntimeOrdered | scheduler/round_robin/rt.c:668-772 | so do disabling and enabling a CPU's queue and the global change |
| LockOrder.TimerOrdered | scheduler/round_robin/rt.c:796-860 | so does the period timer |
| LockOrder.OperationOrdered | scheduler/round_robin/core.c:332-365 | every operation modelled keeps the order and releases all it takes |
| LockOrder.OperationReaches | scheduler/round_robin/sched.h:1358-1488 | every operation modelled holds together, whichever way its trylocks go, the locks that guard each thing it touches: the task's pi lock with its runqueue's, both of each for a swap, both runqueues for a push or pull, the runtime lock under them for accounting, lending, going on- and offline |
| LockOrder.DoWorkReaches | scheduler/round_robin/rt.c:936-959 | so does accounting on a locked runqueue: the runtime lock, the bandwidth lock for the timer, bandwidth and neighbour's runtime lock for each loan |
| LockOrder.BalanceReaches | scheduler/round_robin/rt.c:1671-1840 | so do the push and pull loops: both runqueues' locks for each runqueue visited |
| LockOrder.NoDeadlock | scheduler/round_robin/sched.h:1358-1488 | with either variant, however operations start and interleave: no reachable state has a wait cycle, and some thread can always go on |
| DlBandwidth.StaleShortcut | scheduler/round_robin/core.c:2081-2117 | an accepted change leaves the account right iff it is not an entering task whose left-over dl_bw equals the new one |
| DlBandwidth.OverflowMeans | scheduler/round_robin/core.c:2066-2117 | in a sound account the code's wrapped test is whether all tasks together fit the active CPUs |
| DlBandwidth.ChangeKeeps | scheduler/round_robin/core.c:2081-2117 | the account stays the sum of the tasks' dl_bw and within limit x CPUs |
| DlBandwidth.WrappedTaskCountsNothing | scheduler/round_robin/core.c:2006-2020 | every valid task with a runtime that is a multiple of 2^44 ns, whatever its deadline and period, has the ratio 0 |
| DlBandwidth.UtilizationBounded | scheduler/round_robin/core.c:2006-2117 | the true utilization of n >= 1 admitted tasks is below cpus x R/P + n/2^20 |
| DlBandwidth.WrappedTasksOverrun | scheduler/round_robin/core.c:2006-2117 | n tasks of runtime and period 2^44 ns need n CPUs and are counted for 0; for n >= 1 and n >= 2 x CPUs that is above the bound of UtilizationBounded |
| DlBandwidth.WrappedTasksEnter | scheduler/round_robin/core.c:3635-3665 | a run: any number n of such tasks is accepted one after the other by any empty root domain, from a user as long as the limit is not 0, with the account at 0 and the utilization at n |
| DlBandwidth.FitsNewLimit | scheduler/round_robin/core.c:7741-7775 | under a new limit the tasks fit iff the limit is off or the account is within limit x CPUs |
| DlBandwidth.LimitRefused | scheduler/round_robin/core.c:7741-7862 | a run: two CPUs, two accepted tasks of three quarters of a CPU each; a limit of 90 percent and no limit at all are both refused, although the tasks fit under either |
| DlBandwidth.RootDomain.NewTask | scheduler/round_robin/core.c:1835-1855 | a new task owes nothing |
| DlBandwidth.RootDomain.constructor | scheduler/round_robin/core.c:5645-5645 | an empty account fits |
| DlBandwidth.RootDomain.DlOverflow | scheduler/round_robin/core.c:2081-2117 | the branches compute the new total or leave it, for the ratio over the period if one is given and over the deadline if not |
| DlBandwidth.RootDomain.SetScheduler | scheduler/round_robin/core.c:3607-3665 | -EINVAL iff the parameters are invalid, -EPERM iff else a user asks with the limit at 0 or with an affinity smaller than the span, -EBUSY iff else the task's ratio, over its period or without one over its deadline, does not fit together with all other tasks; an accepted task is counted by exactly that ratio, a task that leaves not at all, all others as before; nothing changes on refusal; a runtime that is a multiple of 2^44 ns always fits and is not counted |
| DlBandwidth.RootDomain.CpuDown | scheduler/round_robin/core.c:5335-5368 | accepted iff the tasks fit the remaining CPUs; otherwise the CPU is active again |
| DlBandwidth.RootDomain.CpuUp | scheduler/round_robin/core.c:5320-5333 | another CPU keeps the account within bounds |
| DlBandwidth.RootDomain.SetLimit | scheduler/round_robin/core.c:7741-7862 | -EINVAL iff invalid, -EBUSY iff the account exceeds one CPU's share; so the answer is whether the tasks fit, except iff they fit and exceed that one share; with one CPU it always is, unless the limit is off before and after; more than one CPU's worth of tasks refuses every write |
| PushPull.PlistAddKeeps | scheduler/round_robin/rt.c:350-359 | adding to the list keeps it sorted by priority with exactly one more member |
| PushPull.PlistAddPlace | scheduler/round_robin/rt.c:350-359 | a task goes behind all nodes of the same or a higher priority and before all others |
| PushPull.PlistAddDistinct | scheduler/round_robin/rt.c:350-359 | a task is on the list at most once |
| PushPull.EnqueuePushable | scheduler/round_robin/rt.c:350-359 | the task is behind its equals, all others keep their order; `highest_prio.next` is the least priority of the list, also if the task was on it already |
| PushPull.DequeuePushable | scheduler/round_robin/rt.c:361-372 | afterwards `highest_prio.next` is the least priority of the rest, or the idle one |
| PushPull.FirstBit | scheduler/round_robin/rt.c:1060-1064 | the least priority of the queued tasks, or the idle one |
| PushPull.IncRtTasks | scheduler/round_robin/rt.c:1126-1137 | best priority, task count and migratory count are those of the larger set |
| PushPull.DecRtTasks | scheduler/round_robin/rt.c:1139-1149 | best priority, task count and migratory count are those of the smaller set |
| PushPull.MakePushable | scheduler/round_robin/rt.c:1247-1248 | the task joins the list iff it does not run and may move |
| PushPull.PutPrevTask | scheduler/round_robin/rt.c:1478-1488 | the task that ran joins the list iff it is still queued and may move |
| PushPull.Reindex | scheduler/round_robin/rt.c:1880-1897 | the list gains this task behind its equals or loses it, unless it runs; the others keep their order |
| PushPull.CandidateBest | scheduler/round_robin/rt.c:1507-1521 | the task chosen has the least priority value of all pushable tasks allowed on the CPU |
| PushPull.CandidateFirst | scheduler/round_robin/rt.c:1507-1521 | it is the first task of the list that is allowed on the CPU |
| PushPull.PickOk | scheduler/round_robin/rt.c:1646-1664 | none of the BUG_ONs on the first pushable task fires |
| PushPull.MovedConserves | scheduler/round_robin/rt.c:1738-1741 | a move loses and duplicates no task |
| PushPull.Domain.constructor | scheduler/round_robin/rt.c:62-89 | empty runqueues satisfy all the definitions |
| PushPull.OverloadedMeans | scheduler/round_robin/rt.c:260-300 | the flag and the mask by the tasks alone: a runqueue is overloaded iff it has two RT tasks one of which may run elsewhere, and in the mask iff it is online as well |
| PushPull.Domain.RtSetOverload | scheduler/round_robin/rt.c:260-277 | mask and count change together, for an online CPU only |
| PushPull.Domain.RtClearOverload | scheduler/round_robin/rt.c:279-287 | mask and count change together, for an online CPU only |
| PushPull.Domain.UpdateRtMigration | scheduler/round_robin/rt.c:289-300 | overloaded iff a migratory task and more than one task; mask = online overloaded CPUs, count its size |
| PushPull.Domain.IncAt | scheduler/round_robin/rt.c:302-317 | counts, overloaded flag, mask and mask count follow the new set of queued tasks; the list does not change yet |
| PushPull.Domain.AddTask | scheduler/round_robin/rt.c:1247-1248 | a task that is queued nowhere means nothing to any index |
| PushPull.Domain.EnqueueTask | scheduler/round_robin/rt.c:1237-1249 | all indexes agree with their definitions afterwards; exactly this task was added |
| PushPull.Domain.DequeueTask | scheduler/round_robin/rt.c:1251-1259 | all indexes agree with their definitions afterwards; exactly this task was removed |
| PushPull.Domain.SwitchTo | scheduler/round_robin/rt.c:1438-1488 | put_prev and pick keep the list at: queued, not running, more than one CPU; the task put back goes behind its equals, the others keep their order |
| PushPull.Domain.SetCpusAllowedRt | scheduler/round_robin/rt.c:1864-1900 | the indexes are those of the new mask |
| PushPull.Domain.SetAllowed | scheduler/round_robin/core.c:4745-4752 | an affinity change keeps all indexes right; a waiting task joins the list behind its equals when it may move from now on and leaves it when it may not any more, nobody else moves |
| PushPull.Domain.ChangePrio | scheduler/round_robin/core.c:3659-3677 | the bracket keeps all indexes right when a priority changes, into and out of the RT class; a waiting task that may move goes behind its equals |
| PushPull.Domain.Online | scheduler/round_robin/rt.c:1902-1911 | an overloaded CPU joins the mask when it comes online |
| PushPull.Domain.Offline | scheduler/round_robin/rt.c:1913-1922 | and leaves it when it goes offline |
| PushPull.Domain.MoveTask | scheduler/round_robin/rt.c:1738-1741 | exactly this task changes runqueue and CPU, it joins the list there behind its equals, and all indexes stay right |
| PushPull.Domain.FindLockLowestRq | scheduler/round_robin/rt.c:1597-1644 | a CPU is found iff the task may run elsewhere and one of at most three answers, the ones before it all naming other CPUs without success, names another CPU that runs nothing as important; then it is that one |
| PushPull.Domain.PushRtTask | scheduler/round_robin/rt.c:1671-1751 | pushes iff the CPU is overloaded, has a pushable task, the first one does not outrank what runs here, and an answer suits; then the first pushable task moves to the first suitable answer, where it outranks every RT task; otherwise nothing changes |
| PushPull.Domain.PushRtTasks | scheduler/round_robin/rt.c:1753-1758 | ends, loses and duplicates no task; no task that leaves runs here or outranks what does; a first pushable task stays only if it should preempt here or the answers ran out unsuitable |
| PushPull.Domain.PickHighestPushable | scheduler/round_robin/rt.c:1507-1521 | the first pushable task allowed on the CPU |
| PushPull.Domain.PullFrom | scheduler/round_robin/rt.c:1776-1837 | one turn pulls iff the first pushable task allowed here outranks all RT tasks here and does not outrank what its own CPU runs; then exactly that task; leaves nothing better on that CPU, nor on those looked at before |
| PushPull.NoneTaken | scheduler/round_robin/rt.c:1776-1822 | what a turn leaves behind, no turn would take |
| PushPull.Domain.PullRtTask | scheduler/round_robin/rt.c:1760-1841 | afterwards, for every other overloaded CPU, its best pushable task allowed here does not outrank this CPU's best, or already outranks what its own CPU runs; each pulled task was pushable on its CPU, did not outrank what runs there, may run here and outranked all RT tasks here; none is lost or duplicated |
| RtThrottle.ExecutionBounded | scheduler/round_robin/rt.c:796-991 | over any run with n expirations, RT tasks execute at most (n+1)R + d, where d bounds what is accounted between crossing the limit and switching away |
| RtThrottle.ReleasedExactlyThen | scheduler/round_robin/rt.c:814-856 | a throttled queue with accumulated time T and no execution is released by exactly the floor(T/R)-th expiration, and the timer runs until then |
| RtThrottle.OverrunCounts | scheduler/round_robin/rt.c:828-829 | m expirations handled at once act like m single ones |
| RtThrottle.NextKeeps | scheduler/round_robin/rt.c:874-991 | every event keeps: not throttled means within the runtime, throttled means at least the runtime, queued iff unthrottled with tasks |
| RtThrottle.RtRq.UpdateCurrRt | scheduler/round_robin/rt.c:936-959 | accounting throttles iff the runtime is assigned, below the period, and passed; without a runtime the time is forgotten unless throttled; without a limit nothing is accounted; the runqueue count follows |
| RtThrottle.RtRq.constructor | scheduler/round_robin/rt.c:62-89 | an empty queue satisfies the invariant |
| RtThrottle.RtRq.DequeueTop | scheduler/round_robin/rt.c:961-975 | the runqueue loses the queue's tasks iff they were counted |
| RtThrottle.RtRq.EnqueueTop | scheduler/round_robin/rt.c:977-991 | the runqueue gains the queue's tasks iff it is not throttled and they were not counted |
| RtThrottle.RtRq.RuntimeExceeded | scheduler/round_robin/rt.c:874-918 | throttles iff 0 < runtime < period and the time is beyond it, forgets the time iff the runtime is 0 and the queue not throttled, changes nothing else; reports a reschedule iff the queue is throttled |
| RtThrottle.RtRq.PeriodTimer | scheduler/round_robin/rt.c:796-860 | repays at most what was used, releases iff that leaves the time below the runtime, and keeps the timer unless there is nothing to do or no limit |
| RtThrottle.RtRq.EnqueueTask | scheduler/round_robin/rt.c:1209-1217 | the runqueue counts the queue's tasks iff it is queued; the timer starts iff there is a limit |
| RtThrottle.RtRq.DequeueTask | scheduler/round_robin/rt.c:1219-1232 | the runqueue counts the queue's tasks iff it is queued |
| SchedDomains.RebuiltIs | scheduler/round_robin/core.c:6905-6919 | building a disjoint list attaches every CPU of each mask to it and no other CPU |
| SchedDomains.DestroyedLeaves | scheduler/round_robin/core.c:6886-6897 | after the destroy loop exactly the domains that need not be built are still attached, correctly |
| SchedDomains.BuildStep | scheduler/round_robin/core.c:6905-6919 | building an unmatched domain disturbs none of the others |
| SchedDomains.SchedDomains.constructor | scheduler/round_robin/core.c:6794-6808 | the initial single domain |
| SchedDomains.SchedDomains.Matches | scheduler/round_robin/core.c:6888-6892 | finds a match iff there is one with the same mask and attributes |
| SchedDomains.SchedDomains.PartitionSchedDomains | scheduler/round_robin/core.c:6866-6927 | every CPU of the list ends attached to its mask with the given attributes or the defaults and the new topology, no other CPU to anything: what a full teardown and rebuild gives; without a list the one domain is of the active CPUs that are not isolated; with a list and the old topology, only domains not in the new list are destroyed and only those not in the current one are built, otherwise all |
| SchedDomains.SchedDomains.DestroyDeleted | scheduler/round_robin/core.c:6885-6897 | the first loop destroys exactly the current domains without a match |
| SchedDomains.SchedDomains.BuildNew | scheduler/round_robin/core.c:6905-6919 | the second loop builds exactly the new domains without a match, and leaves all of them attached |
| Numa.FewLevels | scheduler/round_robin/core.c:6354-6404 | there are fewer levels than nodes, so the array is never overrun |
| Numa.FoundNext | scheduler/round_robin/core.c:6370-6392 | one more round adds the next distance |
| Numa.DiscoverLevels | scheduler/round_robin/core.c:6354-6404 | finds exactly the distinct distances of node 0's row above the local one, strictly increasing |
| Numa.NumaMasks.constructor | scheduler/round_robin/core.c:6428-6450 | a CPU is in mask[i][j] iff it is present and its node no further from j than level i |
| Numa.NumaMasks.Set | scheduler/round_robin/core.c:6492-6503 | keeps that when a CPU comes |
| Numa.NumaMasks.Clear | scheduler/round_robin/core.c:6505-6512 | keeps that when a CPU goes |
| Numa.Nested | scheduler/round_robin/core.c:6434-6450 | each level's mask contains the one before |
| Numa.LastLevelIsAll | scheduler/round_robin/core.c:6354-6450 | at the last level node 0 sees every CPU present |

## Left out

- RtGroupRq.Rq.UnthrottleQueue: the replenishment that decides when to release a group queue is modelled for one top queue only (RtThrottle).
- RtRuntime.RootDomain.DoBalanceRuntime: runs with the period timer's replenishment left out; RtRuntime.RunConserves lets the used time change arbitrarily instead.
- RtRuntime.RootDomain.RtHandler: takes a runtime whose sum over all CPUs is below 2^63 ns, which the `int` microseconds of the sysctl imply for fewer than 2^22 CPUs.
- RtThrottle.ExecutionBounded: takes one CPU without sharing; an enqueue racing with the timer's decision to stop is not modelled, the timer fires as one step.
- PushPull.Domain.PushRtTask: sequential, so the checks after a dropped lock always succeed and the retry is not reached; the interleavings are in TaskRqLock and LockOrder.
- PushPull.Domain.SwitchTo: does not fix which task is picked next; the choice is RtGroupPick's subject.
- DlBandwidth.UtilizationBounded: takes runtimes below 2^44 ns; for longer ones it is false, as DlBandwidth.WrappedTasksOverrun proves and CpuRatio.ShareBelow says for each task.
- DlBandwidth.RootDomain.SetScheduler: of the permission checks only that of dl_bw.bw and the affinity against the span (`scheduler/round_robin/core.c:3607-3619`) is modelled.
- TgBandwidth.TimeNeverOvercommitted: takes runtimes below 2^44 ns or infinite ones; for others it is false, as TgBandwidth.WrappedGroupsEnter shows.
- DlBandwidth.RootDomain.SetLimit: takes at least one active CPU; the loop over all CPUs reads one root domain.
- TaskRqLock.LockReturnsRight: `on_cpu` and the context switch are left out.
- TaskRqProgress.SomeoneMoves: some thread moves, not every one in the end: nothing makes the locks fair.
- Circular.Runqueue.Change: of the other classes only their part of the runqueue count is kept, not their queues.
- Circular.CircRq.EnqueueTask: an entity is one object with its list node; `container_of` is not modelled.
- SchedDomains.SchedDomains.PartitionSchedDomains: what `build_sched_domains` builds is named by span, attributes and topology, not constructed; allocation failures in it are left out.
- Numa.DiscoverLevels: debugging off, so other rows of the table are not compared; failing allocations are left out.
- TgBandwidth.TaskGroups.CreateGroup: fewer than 2^44 children of one group, so that sums fit an unsigned long.
- The exit of a deadline task gives its bandwidth back in deadline.c, which is not part of this model; neither are fair.c, the stop and idle classes, cpupri and cpusets.
- RT groups on several CPUs (per-CPU queues of a group are one queue here), autogroups and attaching tasks to groups by cgroup.
- Suspend and resume hotplug, which skips the deadline check on purpose, and moves between root domains.
- `try_to_wake_up_local` in TaskRqLock: it wakes per-CPU workers only; its locks are in LockOrder.
- Context switches, IPIs, preemption checks, clocks, statistics, tick handlers, time slices, load tracking.
- System calls, other permission checks, debug printing, sysctl and cgroup file glue, and everything outside `scheduler/round_robin`.
