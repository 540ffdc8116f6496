# OS Simulator algorithms in Dafny

This project models the algorithm library of the OS Simulator teaching
application (`utils/algorithms.ts`). The library has five families of
operations, and the model covers all eighteen of them:

- **CPU scheduling**: first come first serve, shortest job first,
  non-preemptive priority scheduling and round robin. Each takes a list of
  processes and returns a Gantt chart, per-process metrics (start, finish,
  waiting and turnaround time) and totals.
- **Memory allocation**: first fit, best fit and worst fit. Each places a list
  of requests into a table of memory blocks, one request per block, and
  records internal fragmentation.
- **Page replacement**: FIFO, LRU, optimal and Clock (second chance). Each
  processes a reference string against a fixed number of frames and records a
  snapshot of the frames after every reference, plus hit and miss counts.
- **Disk scheduling**: FCFS, SSTF, SCAN, C-SCAN and LOOK. Each orders a queue
  of track requests and computes the total head movement.
- **Deadlocks**: the Banker's safety algorithm and deadlock detection. Both
  repeatedly sweep the processes in input order, let every process whose
  remaining need fits the available vector finish, release its allocation,
  and record a snapshot of the table after each step.

## Files and modules

- `common.dfy` (`Common`) holds `Option` and a stable insertion sort `SortBy`.
  JavaScript's `Array.prototype.sort` is stable, and the library sorts with a
  key-difference comparator, so `SortBy` is the sort it uses.
- `cpu_scheduling.dfy` (`CpuScheduling`) holds FCFS, SJF and priority
  scheduling. SJF and priority share one selection loop,
  `NonPreemptive(tasks, key)`.
- `round_robin.dfy` (`RoundRobinScheduling`) holds round robin: the ready and
  pending queues, the per-process accounting, the loop invariant `Round`,
  and the reference trace `Trace` that the main loop is proved to draw.
- `memory_allocation.dfy` (`MemoryAllocation`) holds one allocation loop,
  `Allocate(fit, …)`. It is parameterised by the fit rule, and the three block
  scans are specified by the declarative choice `Chosen`.
- `memory_example.dfy` (`MemoryAllocationExample`) holds the memory screen's
  default blocks and processes under each fit rule.
- `page_replacement.dfy` (`PageReplacement`):
  - FIFO, LRU and optimal run one loop, `Simulate(policy, …)`, over an
    `array<Frame>`. Each is proved equal to the specification trace `Trace`.
  - Clock runs over an `array<ClockFrame>`, and its hand sweep is a `while`
    loop proved equal to `SecondChance`.
- `page_example.dfy` (`PageReplacementExample`) holds the page screen's
  default run: FIFO on `7 0 1 2 0 3 0 4 2 3 0 3 2 1 2 0 1 7 0 1` with three
  frames.
- `disk_scheduling.dfy` (`DiskScheduling`):
  - FCFS and SSTF are loops, proved against the path length `Travel`.
  - SCAN, C-SCAN and LOOK are straight-line code. They are functions with
    their exact head-movement formulas, and lemmas relate each formula to a
    real head path.
- `deadlock.dfy` (`Deadlock`):
  - Both algorithms share one sweep loop, `Settle`.
  - They are specified relationally: `SafeOrder` means every process's need
    fits what the processes before it released, and `Stuck` means no
    unfinished process fits any more.
  - The snapshots are `Board`.

## Model

| member | source | states |
|---|---|---|
| Common.SortBy | utils/algorithms.ts:29 | the result is in ascending order of the key and is a permutation of the input |
| Common.SortByStable | utils/algorithms.ts:29 | the sort is stable: the elements sharing any one key keep their input order |
| CpuScheduling.Fcfs | utils/algorithms.ts:22-92 | the processes run in stable order of arrival, each to completion, starting at its arrival or at the previous finish, whichever is later; every entry has waiting = start − arrival and turnaround = finish − arrival; the chart has one bar per entry; the totals are the sums |
| CpuScheduling.FcfsDispatched | utils/algorithms.ts:49-84 | the FCFS entries satisfy the dispatch rule: no idle time while an undispatched process has arrived, and an idle gap ends at the earliest pending arrival |
| CpuScheduling.Sjf | utils/algorithms.ts:95-188 | every process is dispatched exactly once (a permutation); each runs its whole burst without idling while work is waiting; whenever one is chosen, no process that had arrived has a shorter burst, and equal bursts go in input order; chart and totals as for FCFS |
| CpuScheduling.PriorityScheduling | utils/algorithms.ts:328-423 | as `Sjf`, with the key `priority \|\| Infinity`: a missing priority and a priority of 0 both rank after every other value |
| CpuScheduling.SelectNext | utils/algorithms.ts:132-148 | returns −1 exactly when no queued process has arrived; otherwise it returns an arrived process with the smallest key, the first such in queue order |
| CpuScheduling.EarliestArrival | utils/algorithms.ts:136 | the smallest arrival time in a non-empty queue, attained by some process |
| CpuScheduling.RunFrom | utils/algorithms.ts:149-152 | running to completion from `start` gives finish = start + burst, with waiting and turnaround derived from it |
| Common.Remove | utils/algorithms.ts:174 | the queue without the element at `i`, every other element keeping its relative order |
| RoundRobinScheduling.RoundRobin | utils/algorithms.ts:191-325 | every process gets exactly its burst of CPU time; each bar is positive and at most one quantum long, the bars never overlap, and none starts before its process arrived; each process's start is its first bar and its finish its last; waiting is never negative; the metrics keep the input order; the totals are the sums; the chart is exactly `RoundRobinTrace`, the reference round robin trace over the processes in stable order of arrival |
| RoundRobinScheduling.Rounds | utils/algorithms.ts:245-315 | the main loop draws exactly the reference trace `Trace` from an empty ready queue and the sorted pending list, and stops in a round state where every process has completed |
| RoundRobinScheduling.Serve | utils/algorithms.ts:245-313 | once the main loop ends, every process was served exactly its burst, has its final entry with waiting time at least 0, and the chart is time-ordered, with bars of at most one quantum that start no earlier than their process's arrival, and equals the reference trace |
| RoundRobinScheduling.RunQuantum | utils/algorithms.ts:266-311 | one turn of the ready queue's head: its bar runs from the clock for min(quantum, remaining time); a head that is done leaves the queue and is counted as completed; otherwise the pending jobs that arrived by the new clock join the back of the ready queue in pending order, followed by the head with the quantum taken off its remaining time; only the head's result entry changes (its start on its first turn, its finish when done); the round invariant (served time plus queued remainder equals the burst, a time-ordered chart with bars of at most one quantum) is kept |
| RoundRobinScheduling.Pass | utils/algorithms.ts:246-312 | one pass of the main loop keeps the round invariant and keeps the chart drawn so far, followed by the reference trace from the new queues and clock, equal to the whole reference trace; the total remaining time shrinks, or an idle clock jumps to the next arrival |
| RoundRobinScheduling.TraceAdmit | utils/algorithms.ts:247-254 | every round of the reference trace begins by moving the arrived pending jobs (that need time) to the back of the ready queue in pending order; the jobs left pending have not arrived, and the total remaining time is unchanged |
| RoundRobinScheduling.TurnStep | utils/algorithms.ts:266-311 | with a job ready, the reference trace draws one bar for the head, of length min(quantum, remaining time), and goes on from the requeued state |
| RoundRobinScheduling.TakeTurns | utils/algorithms.ts:234-312 | two processes arriving at 0 with bursts of 4 under a quantum of 2 are served A [0, 2), B [2, 4), A [4, 6), B [6, 8): the preempted process goes behind the one already waiting |
| RoundRobinScheduling.Admit | utils/algorithms.ts:247-254 | the ready queue gains exactly the pending jobs that have arrived, in their pending order, and the pending queue keeps exactly the others, in order |
| RoundRobinScheduling.FindById | utils/algorithms.ts:270 | returns the first process with the given id |
| RoundRobinScheduling.NoEarlyFinish | utils/algorithms.ts:291-297 | a process on a time-ordered chart that was served its burst finishes no earlier than arrival + burst, so its waiting time is not negative |
| RoundRobinScheduling.ServedWithin | utils/algorithms.ts:276-288 | on a time-ordered chart a process is served at most the time between the start of its first bar and the end of its last |
| MemoryAllocation.FirstFitAllocate | utils/algorithms.ts:450-506 | each request in turn takes the first free block large enough, or none; allocated blocks are exactly the chosen ones, with fragmentation = block size − request size; no block is given twice; the success count equals the allocated blocks; the total fragmentation is their sum |
| MemoryAllocation.BestFitAllocate | utils/algorithms.ts:509-574 | as first fit, choosing the smallest free block large enough, the lowest index among equals |
| MemoryAllocation.WorstFitAllocate | utils/algorithms.ts:577-642 | as first fit, choosing the largest free block large enough, the lowest index among equals |
| MemoryAllocation.Allocate | utils/algorithms.ts:471-504 | the shared loop: the table is reset to free, then every request is handled by the fit rule, giving the outcome above |
| MemoryAllocation.OutcomeUnique | utils/algorithms.ts:471-504 | the outcome the allocators promise is determined by the fit rule, the blocks and the requests: one placement and one result satisfy it |
| MemoryAllocation.PlacementUnique | utils/algorithms.ts:478-498 | two placements that both follow the fit rule request by request are equal |
| MemoryAllocation.OutcomeResult | utils/algorithms.ts:484-504 | for a given placement, the result table, the marked requests, the count and the total are fixed |
| MemoryAllocation.FirstFitBlock | utils/algorithms.ts:481-497 | the scan returns the first free block large enough, or −1 when there is none |
| MemoryAllocation.BestFitBlock | utils/algorithms.ts:539-551 | the scan returns the smallest free block large enough, the first among equals, or −1 |
| MemoryAllocation.WorstFitBlock | utils/algorithms.ts:607-619 | the scan returns the largest free block large enough, the first among equals, or −1 |
| MemoryAllocation.ChosenUnique | utils/algorithms.ts:537-566 | each fit rule determines a single block (or none) for a request |
| MemoryAllocation.PlacementInjective | utils/algorithms.ts:478-498 | since a chosen block must be free, no two requests share a block |
| MemoryAllocation.OccupyTotals | utils/algorithms.ts:484-494 | occupying a free block adds one to the allocated count and its fragmentation to the total |
| MemoryAllocationExample.FirstFitDefault | components/memory-manager.tsx:19-32 | on the screen's default blocks (100, 500, 200, 300, 600) and processes (212, 417, 112, 426), first fit places P1–P3 in blocks 2, 5 and 3 and finds no block for P4: 3 allocations, 559 units of fragmentation |
| MemoryAllocationExample.BestFitDefault | components/memory-manager.tsx:19-32 | best fit places P1–P4 in blocks 4, 2, 3 and 5: 4 allocations, 433 units of fragmentation |
| MemoryAllocationExample.WorstFitDefault | components/memory-manager.tsx:19-32 | worst fit places P1–P3 in blocks 5, 2 and 4 and finds no block for P4: 3 allocations, 659 units of fragmentation |
| PageReplacement.FifoReplace | utils/algorithms.ts:665-735 | the snapshots are the FIFO trace (hit marks the resident frame; a miss overwrites the frame with the smallest lastUsed, the first among equals); hits are the snapshots with a hit, and hits + misses = number of references |
| PageReplacement.LruReplace | utils/algorithms.ts:738-809 | as FIFO, but a hit also sets the frame's lastUsed to the current reference |
| PageReplacement.OptimalReplace | utils/algorithms.ts:812-897 | as FIFO, but a miss fills the first unused frame, or else evicts the frame whose page is next used farthest ahead (never used counts as farthest), the first among equals |
| PageReplacement.ClockReplace | utils/algorithms.ts:900-1004 | the snapshots (without use bits) are the Clock trace; hits + misses = number of references |
| PageReplacement.Victim | utils/algorithms.ts:708-711 | FIFO and LRU evict the first frame with the smallest lastUsed; optimal evicts the first unused frame or else the first frame with the farthest next use |
| PageReplacement.FindFirst | utils/algorithms.ts:697 | `findIndex`: the first position holding the page, −1 exactly when it is absent |
| PageReplacement.OldestFrame | utils/algorithms.ts:708-711 | the `reduce` returns the first frame with the smallest lastUsed |
| PageReplacement.FarthestFrame | utils/algorithms.ts:867-872 | returns the first frame whose page's next use is farthest ahead, counting never as farthest |
| PageReplacement.StepHit | utils/algorithms.ts:697-702 | a step records a hit exactly when the referenced page was resident |
| PageReplacement.StepKeeps | utils/algorithms.ts:697-720 | a step keeps every page in at most one frame, leaves the referenced page resident, and on a hit changes no page |
| PageReplacement.TraceWf | utils/algorithms.ts:688-727 | throughout the run no page sits in two frames, and every snapshot holds the page just referenced |
| PageReplacement.UnusedFramesFillFirst | utils/algorithms.ts:708-711 | FIFO and LRU never search for an unused frame, yet fill one before evicting anything, because an unused frame's lastUsed of −1 is the smallest |
| PageReplacement.SecondChance | utils/algorithms.ts:963-980 | the sweep stops at a frame whose use bit is clear, changes no page, only clears bits, and inspects at most (set bits + 1) ≤ 2 × frames frames |
| PageReplacement.Evict | utils/algorithms.ts:963-980 | the `while (true)` loop clears use bits up to the first clear one, replaces that frame and advances the hand, as `Evicted` states |
| PageReplacement.ClockReference | utils/algorithms.ts:937-981 | one Clock reference updates frames and hand as `ClockStep`, reporting a hit exactly when the page was resident |
| PageReplacement.ClockStepHit | utils/algorithms.ts:939-943 | a Clock step records a hit exactly when the page was resident |
| PageReplacement.ClockTraceWf | utils/algorithms.ts:928-995 | under Clock no page sits in two frames, and every snapshot holds the page just referenced |
| PageReplacementExample.ClassicFifo | components/page-replacer.tsx:19-41 | FIFO with 3 frames on the screen's default string `7 0 1 2 0 3 0 4 2 3 0 3 2 1 2 0 1 7 0 1` reports 5 hits and 15 page faults |
| DiskScheduling.FcfsDisk | utils/algorithms.ts:1019-1034 | serves the requests in input order, numbered 0.., and the head movement is the length of the path from the head through them |
| DiskScheduling.FcfsDefaultQueue | components/disk-scheduler.tsx:22-32 | the default queue from track 50 under FCFS moves the head 642 tracks |
| DiskScheduling.Sstf | utils/algorithms.ts:1037-1063 | serves the requests in the SSTF order and moves the head the length of that path |
| DiskScheduling.SstfPath | utils/algorithms.ts:1043-1056 | the SSTF order is a permutation of the queue |
| DiskScheduling.SstfGreedy | utils/algorithms.ts:1045-1047 | every request served is at least as near the head as every request served after it |
| DiskScheduling.NearestIndex | utils/algorithms.ts:1045-1046 | `indexOf(min(distances))`: the first remaining request nearest the head |
| DiskScheduling.Scan | utils/algorithms.ts:1066-1126 | serves the requests in the sweep order and returns the source's head-movement formula for the direction |
| DiskScheduling.ScanUpMovement | utils/algorithms.ts:1078-1097 | going up: (max above − head) + (disk end − min below), or to the disk end when nothing is at or above the head |
| DiskScheduling.ScanDownMovement | utils/algorithms.ts:1098-1119 | going down: (head − min below) + max above, the second leg measured from track 0 |
| DiskScheduling.ScanUpTravel | utils/algorithms.ts:1078-1097 | the upward formula equals the real head path when only the upper side has requests, and the path up to the last track and back down when only the lower side has; with both sides it falls short of the path through the last track by the stretch from the highest request to the last track |
| DiskScheduling.ScanDownTravel | utils/algorithms.ts:1098-1119 | the downward formula equals the real head path when only the lower side has requests, and the path down to track 0 and back up when only the upper side has; with both sides it falls short of the path through track 0 by the stretch from the lowest request to 0 |
| DiskScheduling.SweepOrder | utils/algorithms.ts:1078-1118 | the order SCAN and LOOK serve is a permutation of the queue |
| DiskScheduling.SweepUp | utils/algorithms.ts:1080-1096 | going up, the requests at or above the head come first, ascending, then the rest, descending |
| DiskScheduling.SweepDown | utils/algorithms.ts:1101-1117 | going down, the requests at or below the head come first, descending, then the rest, ascending |
| DiskScheduling.CScan | utils/algorithms.ts:1129-1164 | serves the circular order; the movement is (disk end − head) + (disk end) + (max below the head, or 0) |
| DiskScheduling.CircularOrder | utils/algorithms.ts:1137-1156 | the C-SCAN order is a permutation of the queue |
| DiskScheduling.CircularShape | utils/algorithms.ts:1137-1156 | C-SCAN serves the requests at or above the head ascending, then those below, again ascending |
| DiskScheduling.CScanTravel | utils/algorithms.ts:1142-1157 | the C-SCAN formula is the length of the path up to the last track, back to track 0, and on through the lower requests |
| DiskScheduling.Look | utils/algorithms.ts:1167-1230 | serves the sweep order and returns the source's LOOK formula for the direction |
| DiskScheduling.LookUpMovement | utils/algorithms.ts:1178-1199 | going up: (max above − head) + (max above − min below); with nothing at or above the head, only head − max below |
| DiskScheduling.LookDownMovement | utils/algorithms.ts:1200-1222 | going down: (head − min below) + (max above − max below); with nothing at or below the head, only min above − head |
| DiskScheduling.LookUpTravel | utils/algorithms.ts:1178-1199 | the upward LOOK formula equals the real path length when something is at or above the head, and falls short of it by the span of the lower requests otherwise |
| DiskScheduling.LookDownTravel | utils/algorithms.ts:1200-1222 | the downward LOOK formula equals the real path length when only the lower side has requests; with both sides it falls short by the span of the lower requests, and with only the upper side by the span of the upper requests |
| Deadlock.Bankers | utils/algorithms.ts:1256-1324 | the safe sequence lists distinct processes, each of whose need fits the initial vector plus what the earlier ones released; the final vector is that plus all their releases; the state is reported safe exactly when every process is in the sequence, and otherwise no remaining process fits; a safe verdict means some safe order finishes everyone, and with non-negative allocations such an order forces a safe verdict; snapshot k is the table after k + 1 finishes, each finished row holding its rank |
| Deadlock.Detection | utils/algorithms.ts:1327-1399 | the finishing order is safe in the same sense; a deadlock is reported exactly when some process did not finish, and then none of them can; the deadlocked list is the unfinished processes in input order, non-empty exactly when there is a deadlock; with non-negative allocations it is exactly the processes no safe order can finish, and a deadlock is reported exactly when no safe order finishes everyone; snapshots as for the Banker's algorithm, without ranks |
| Deadlock.Settle | utils/algorithms.ts:1276-1316 | the sweeps end with a safe order, with the table, vector, sequence and snapshots consistent with it, and with all processes finished or every unfinished one blocked |
| Deadlock.Sweep | utils/algorithms.ts:1279-1310 | a pass keeps the order safe and the table consistent with it; a pass that finds someone finishes more processes; a pass that finds nobody changes nothing and leaves every unfinished process blocked |
| Deadlock.Visit | utils/algorithms.ts:1280-1308 | a process is admitted exactly when it is unfinished and its need fits the current vector |
| Deadlock.CanAllocate | utils/algorithms.ts:1281-1289 | true exactly when the need is at most the available vector in every component |
| Deadlock.Release | utils/algorithms.ts:1299-1301 | adds the finishing process's allocation to the available vector, componentwise |
| Deadlock.Need | utils/algorithms.ts:1267 | allocation + need = max in every component |
| Deadlock.BoardRows | utils/algorithms.ts:1262-1306 | every row keeps its process's data and need; a row is finished exactly when its process is in the order; the k-th finisher's rank is k; unfinished rows have no rank |
| Deadlock.Finished | utils/algorithms.ts:1273-1319 | the count of finished rows is the table size exactly when every row is finished |
| Deadlock.SafeWithin | utils/algorithms.ts:1276-1316 | with non-negative allocations, every process of any safe order also finishes in the sweeps |
| Deadlock.NoSafeSequence | utils/algorithms.ts:1312-1319 | a process left unfinished belongs to no safe order at all, so an unsafe verdict is never wrong |
| Deadlock.SettledVerdict | utils/algorithms.ts:1312-1319 | once the sweeps end, a complete order proves the state safe, and with non-negative allocations the finished processes are exactly those some safe order finishes, so a safe state always yields a complete order |
| Deadlock.DetectionVerdict | utils/algorithms.ts:1392-1397 | no deadlock means a safe state; with non-negative allocations a safe state means no deadlock, and the deadlocked list is the processes no safe order finishes, in input order |
| Deadlock.FinishedSetUnique | utils/algorithms.ts:1276-1316 | two safe orders that both end stuck finish the same processes, so the verdict does not depend on the order processes are tried |
| Deadlock.DefaultOutcome | components/deadlock-manager.tsx:20-32 | on the screen's default table, the sweeps finish P2, P3, P4 and P5, so the state is unsafe and `["P1"]` is deadlocked |
| Deadlock.DefaultSafe | components/deadlock-manager.tsx:20-32 | P2, P4, P5, P3 is a safe order of the default table, leaving [10, 3, 7] available |
| Deadlock.DefaultUnsafe | components/deadlock-manager.tsx:20-32 | the default state is unsafe: no safe order finishes every process, and the processes some safe order finishes are P2, P3, P4 and P5 |
| Deadlock.DefaultStuck | components/deadlock-manager.tsx:20-32 | after those four, P1's need [7, 4, 3] does not fit [10, 3, 7] |

## Left out

- The averages (`averageWaitingTime`, `averageTurnaroundTime`,
  `averageHeadMovement`) and `hitRatio` are floating-point divisions. The
  model keeps the integer totals and counts they are computed from.
- Colours, chart styling and everything else about presentation are left
  out, as are the random input generators and the parser for typed
  reference strings. Only the library's computations are modelled.
- Process ids must be distinct for SJF, priority and round robin. The form
  rejects a duplicate id (components/cpu-scheduler.tsx:63-66), and the
  source finds processes by id.
- RoundRobinScheduling.RoundRobin requires bursts of at least 1, arrivals of
  at least 0 and a quantum of at least 1, as the form enforces. A burst of 0
  can keep the source's loop from terminating: a zero-burst process never
  passes the first admission test (utils/algorithms.ts:249), and the clock
  jump at utils/algorithms.ts:258-260 can then repeat forever. A quantum of
  0 always does. A zero-burst process that a later preemption sweeps in
  (utils/algorithms.ts:303, which has no remaining-time test) runs a
  zero-length bar and completes; the model does not cover that case.
- MemoryAllocation.WorstFitAllocate requires request sizes of at least 0.
  The form's minimum is 1. A negative size could otherwise lose to the −1
  that the scan starts from.
- The `processId` and `blockId` link fields are not modelled. The source
  has the lines that would set them commented out.
- PageReplacement.FifoReplace, LruReplace, OptimalReplace and ClockReplace
  require at least one frame, as the form enforces with `min="1"`
  (components/page-replacer.tsx:127). With no frames the source does not
  fail alike: FIFO's and LRU's `reduce` starts from index 0, so the first
  miss writes frame 0 and they go on as with one frame; optimal writes to
  index −1 (`indexOf` of the maximum of no values), which is no frame, so
  every reference misses and every snapshot is empty; Clock reads a frame
  that does not exist and throws. These zero-frame behaviours are not
  modelled.
- Times, sizes, track numbers, counts and resource amounts are unbounded
  integers. The forms read them with `Number(value)`
  (components/cpu-scheduler.tsx:53, components/memory-manager.tsx:63 and 71,
  components/disk-scheduler.tsx:55, components/deadlock-manager.tsx:70),
  which also admits fractions, NaN and values past 2^53; those are not
  modelled.
- DiskScheduling works on track numbers only. A request carries nothing
  else, and the `order` rank is the position in the service order.
- DiskScheduling.ScanUpTravel, ScanDownTravel, LookUpTravel and
  LookDownTravel relate the source's formulas to real head paths. The
  formulas are modelled as written, including where they differ from the
  path the head travels (SCAN's missing stretch to the disk end; LOOK's
  second leg and its one-sided cases). SCAN's disk size only appears in the
  upward formula.
- DiskScheduling.CScan models the movement as written: both branches of the
  first leg add the distance to the last track, and the jump back counts
  diskSize − 1.
- Deadlock.Bankers and Deadlock.Detection require every allocation and
  maximum vector to have one entry per resource, as the form builds them.
- Deadlock.Bankers and Deadlock.Detection promise that a safe state is
  never reported unsafe only for non-negative allocations, as the form
  enforces. A negative allocation shrinks the available vector when its
  process finishes, so the order of the passes can then matter.
- Deadlock.Bankers and Deadlock.Detection pin the outcome relationally:
  the order is safe and maximal, and the finished set is unique
  (FinishedSetUnique). They do not pin which safe order the input-order
  passes produce.
- The incoming `finished`, `request` and `safeSequence` fields of a deadlock
  process are not read. The source overwrites `finished` and `request`. A
  process that never finishes keeps an incoming `safeSequence`, which the
  model starts out empty.
- The `total` field of a resource is not used by either algorithm.
- CpuScheduling.PriorityScheduling follows the code's key
  `priority || Infinity`, under which a priority of 0 ranks last. A
  description that treats only a missing priority as worst would differ from
  the code here.
