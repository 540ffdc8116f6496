/** CPU scheduling: first come first serve, shortest job first, round robin
    and non-preemptive priority scheduling over a list of processes. Each
    simulation returns the Gantt chart, the per-process metrics and the
    total waiting and turnaround times (the averages divide these by the
    number of processes). */
module CpuScheduling {
  import opened Common

  /** A process: `priority` is None when the caller gave none. */
  datatype Task = Task(id: string, arrival: int, burst: int, priority: Option<int>)

  /** One bar of the Gantt chart: process `id` runs on [start, end). */
  datatype Slice = Slice(id: string, start: int, end: int)

  /** A process with the times the simulation derived for it. */
  datatype Metrics = Metrics(task: Task, start: int, finish: int, waiting: int, turnaround: int)

  datatype Schedule = Schedule(slices: seq<Slice>, metrics: seq<Metrics>,
                               totalWaiting: int, totalTurnaround: int)

  function Arrival(t: Task): int { t.arrival }

  predicate DistinctIds(ts: seq<Task>) {
    forall a, b :: 0 <= a < b < |ts| ==> ts[a].id != ts[b].id
  }

  function TotalWaiting(m: seq<Metrics>): int {
    if m == [] then 0 else TotalWaiting(m[..|m| - 1]) + m[|m| - 1].waiting
  }

  function TotalTurnaround(m: seq<Metrics>): int {
    if m == [] then 0 else TotalTurnaround(m[..|m| - 1]) + m[|m| - 1].turnaround
  }

  function TotalBurst(m: seq<Metrics>): int {
    if m == [] then 0 else TotalBurst(m[..|m| - 1]) + m[|m| - 1].task.burst
  }

  /** Turnaround is finish minus arrival and waiting is turnaround minus burst. */
  predicate Derived(e: Metrics) {
    e.turnaround == e.finish - e.task.arrival && e.waiting == e.turnaround - e.task.burst
  }

  predicate Totals(r: Schedule) {
    r.totalWaiting == TotalWaiting(r.metrics) && r.totalTurnaround == TotalTurnaround(r.metrics)
  }

  /** The clock when entry `k` of a non-preemptive run is chosen. */
  function ClockBefore(m: seq<Metrics>, k: nat): int
    requires k <= |m|
  {
    if k == 0 then 0 else m[k - 1].finish
  }

  /** Entry `k` runs its whole burst from its start, no earlier than its
      arrival and than the end of the previous entry; it starts later than
      that end only when no process still to be dispatched had arrived by
      then, and then it starts at the earliest of their arrivals. */
  ghost predicate EntryOk(m: seq<Metrics>, k: nat)
    requires k < |m|
  {
    && m[k].finish == m[k].start + m[k].task.burst
    && m[k].task.arrival <= m[k].start
    && ClockBefore(m, k) <= m[k].start
    && Derived(m[k])
    && (ClockBefore(m, k) < m[k].start ==>
          forall j :: k <= j < |m| ==> m[k].start <= m[j].task.arrival)
  }

  /** Every entry of a non-preemptive run satisfies `EntryOk`. */
  ghost predicate Dispatched(m: seq<Metrics>) {
    forall k :: 0 <= k < |m| ==> EntryOk(m, k)
  }

  /** `order` lists each index below `n` exactly once. */
  ghost predicate IsPermutation(order: seq<nat>, n: nat) {
    && |order| == n
    && (forall k :: 0 <= k < n ==> order[k] < n)
    && (forall a, b :: 0 <= a < b < n ==> order[a] != order[b])
  }

  /** A selection key: a number, or +Infinity. */
  datatype Rank = Finite(n: int) | Unbounded

  /** Strictly smaller. */
  predicate Before(a: Rank, b: Rank) {
    a.Finite? && (b.Unbounded? || a.n < b.n)
  }

  /** Shortest job first selects on the burst time. */
  function BurstRank(t: Task): Rank { Finite(t.burst) }

  /** Priority scheduling selects on `priority || Infinity`: a missing
      priority and a priority of 0 both rank after every other value. */
  function PriorityRank(t: Task): Rank {
    if t.priority.None? || t.priority.value == 0 then Unbounded else Finite(t.priority.value)
  }

  /** Whenever entry `k` was chosen, no process dispatched after it had
      arrived with a smaller key, and one that had arrived with an equal key
      comes later in the input (`order` gives each entry's input index). */
  ghost predicate PickedBy(m: seq<Metrics>, key: Task -> Rank, order: seq<nat>)
    requires |order| == |m|
  {
    forall k, j :: 0 <= k < j < |m| && m[j].task.arrival <= m[k].start ==>
      && !Before(key(m[j].task), key(m[k].task))
      && (key(m[j].task) == key(m[k].task) ==> order[k] < order[j])
  }

  /** Without preemption the chart has one bar per entry, in dispatch order. */
  predicate Charts(slices: seq<Slice>, m: seq<Metrics>) {
    && |slices| == |m|
    && forall k :: 0 <= k < |slices| ==> slices[k] == Slice(m[k].task.id, m[k].start, m[k].finish)
  }

  /** The entry for running `t` to completion from `start`. */
  function RunFrom(t: Task, start: int): (e: Metrics)
    ensures e.task == t && e.start == start
    ensures Derived(e) && e.finish == e.start + t.burst
  {
    Metrics(t, start, start + t.burst, start - t.arrival, start + t.burst - t.arrival)
  }

  lemma AppendEntry(slices: seq<Slice>, m: seq<Metrics>, e: Metrics)
    requires Charts(slices, m)
    ensures Charts(slices + [Slice(e.task.id, e.start, e.finish)], m + [e])
    ensures TotalWaiting(m + [e]) == TotalWaiting(m) + e.waiting
    ensures TotalTurnaround(m + [e]) == TotalTurnaround(m) + e.turnaround
    ensures forall k :: 0 <= k <= |m| ==> ClockBefore(m + [e], k) == ClockBefore(m, k)
  {
    assert (m + [e])[..|m|] == m;
  }

  /** First come first serve: processes in stable order of arrival, each run
      to completion; the clock jumps to the next arrival when idle. */
  method Fcfs(tasks: seq<Task>) returns (r: Schedule)
    ensures |r.metrics| == |tasks|
    ensures forall k :: 0 <= k < |tasks| ==> r.metrics[k].task == SortBy(tasks, Arrival)[k]
    ensures Dispatched(r.metrics)
    ensures Charts(r.slices, r.metrics) && Totals(r)
  {
    var sorted := SortBy(tasks, Arrival);
    var slices: seq<Slice> := [];
    var metrics: seq<Metrics> := [];
    var now, totalWaiting, totalTurnaround := 0, 0, 0;
    for k := 0 to |sorted|
      invariant |metrics| == k
      invariant now == ClockBefore(metrics, k)
      invariant FcfsEntries(metrics, sorted)
      invariant Charts(slices, metrics)
      invariant totalWaiting == TotalWaiting(metrics) && totalTurnaround == TotalTurnaround(metrics)
    {
      var task := sorted[k];
      if task.arrival > now {
        now := task.arrival;
      }
      var e := RunFrom(task, now);
      AppendEntry(slices, metrics, e);
      FcfsStep(metrics, sorted, e);
      slices := slices + [Slice(task.id, e.start, e.finish)];
      metrics := metrics + [e];
      now := e.finish;
      totalWaiting := totalWaiting + e.waiting;
      totalTurnaround := totalTurnaround + e.turnaround;
    }
    FcfsDispatched(metrics, sorted);
    r := Schedule(slices, metrics, totalWaiting, totalTurnaround);
  }

  /** Entry `j` of a first-come-first-serve run is `sorted[j]` started at
      the later of its arrival and the end of the previous entry. */
  ghost predicate FcfsEntry(m: seq<Metrics>, sorted: seq<Task>, j: nat)
    requires j < |m| && j < |sorted|
  {
    m[j] == RunFrom(sorted[j], if sorted[j].arrival > ClockBefore(m, j)
                               then sorted[j].arrival else ClockBefore(m, j))
  }

  ghost predicate FcfsEntries(m: seq<Metrics>, sorted: seq<Task>) {
    && |m| <= |sorted|
    && forall j :: 0 <= j < |m| ==> FcfsEntry(m, sorted, j)
  }

  lemma FcfsStep(m: seq<Metrics>, sorted: seq<Task>, e: Metrics)
    requires FcfsEntries(m, sorted) && |m| < |sorted|
    requires e == RunFrom(sorted[|m|], if sorted[|m|].arrival > ClockBefore(m, |m|)
                                       then sorted[|m|].arrival else ClockBefore(m, |m|))
    ensures FcfsEntries(m + [e], sorted)
  {
    var m' := m + [e];
    assert m'[..|m|] == m;
    forall j | 0 <= j < |m'|
      ensures FcfsEntry(m', sorted, j)
    {
      if j < |m| {
        assert FcfsEntry(m, sorted, j);
        assert ClockBefore(m', j) == ClockBefore(m, j);
      }
    }
  }

  lemma FcfsDispatched(m: seq<Metrics>, sorted: seq<Task>)
    requires |m| == |sorted| && FcfsEntries(m, sorted) && SortedBy(sorted, Arrival)
    ensures forall k :: 0 <= k < |m| ==> m[k].task == sorted[k]
    ensures Dispatched(m)
  {
    forall k | 0 <= k < |m|
      ensures m[k].task == sorted[k] && EntryOk(m, k)
    {
      assert FcfsEntry(m, sorted, k);
      forall j | k <= j < |m|
        ensures m[k].start <= m[j].task.arrival || m[k].start == ClockBefore(m, k)
      {
        assert FcfsEntry(m, sorted, j);
        assert Arrival(sorted[k]) <= Arrival(sorted[j]);
      }
    }
  }

  /** Among the queued processes that have arrived by `now`, the index of the
      one with the smallest key, the first one among equals; -1 when none has
      arrived. (The source filters the arrived processes, reduces them to
      the first minimum and finds that process's index by id; with distinct
      ids that is this index.) */
  method SelectNext(queue: seq<Task>, now: int, key: Task -> Rank) returns (sel: int)
    ensures -1 <= sel < |queue|
    ensures sel == -1 <==> forall t :: 0 <= t < |queue| ==> now < queue[t].arrival
    ensures sel >= 0 ==> queue[sel].arrival <= now
    ensures sel >= 0 ==> forall t :: 0 <= t < |queue| && queue[t].arrival <= now ==>
              !Before(key(queue[t]), key(queue[sel]))
    ensures sel >= 0 ==> forall t :: 0 <= t < sel && queue[t].arrival <= now ==>
              Before(key(queue[sel]), key(queue[t]))
  {
    sel := -1;
    for i := 0 to |queue|
      invariant -1 <= sel < i
      invariant sel == -1 ==> forall t :: 0 <= t < i ==> now < queue[t].arrival
      invariant sel >= 0 ==> queue[sel].arrival <= now
      invariant sel >= 0 ==> forall t :: 0 <= t < i && queue[t].arrival <= now ==>
                  !Before(key(queue[t]), key(queue[sel]))
      invariant sel >= 0 ==> forall t :: 0 <= t < sel && queue[t].arrival <= now ==>
                  Before(key(queue[sel]), key(queue[t]))
    {
      if queue[i].arrival <= now && (sel == -1 || Before(key(queue[i]), key(queue[sel]))) {
        sel := i;
      }
    }
  }

  /** `Math.min` over the arrival times of a non-empty queue. */
  method EarliestArrival(queue: seq<Task>) returns (m: int)
    requires |queue| > 0
    ensures exists t :: 0 <= t < |queue| && m == queue[t].arrival
    ensures forall t :: 0 <= t < |queue| ==> m <= queue[t].arrival
  {
    m := queue[0].arrival;
    for i := 1 to |queue|
      invariant exists t :: 0 <= t < |queue| && m == queue[t].arrival
      invariant forall t :: 0 <= t < i ==> m <= queue[t].arrival
    {
      if queue[i].arrival < m {
        m := queue[i].arrival;
      }
    }
  }

  /** The queue holds the input processes at the increasing indices `qi`;
      the dispatched entries are the input processes at `order`; together
      they cover every input index once. */
  ghost predicate Indexed(tasks: seq<Task>, queue: seq<Task>, qi: seq<nat>, m: seq<Metrics>, order: seq<nat>) {
    && |qi| == |queue| && |order| == |m| && |order| + |qi| == |tasks|
    && (forall t :: 0 <= t < |qi| ==> qi[t] < |tasks| && queue[t] == tasks[qi[t]])
    && (forall a, b :: 0 <= a < b < |qi| ==> qi[a] < qi[b])
    && (forall k :: 0 <= k < |order| ==> order[k] < |tasks| && m[k].task == tasks[order[k]])
    && (forall a, b :: 0 <= a < b < |order| ==> order[a] != order[b])
    && (forall k, t :: 0 <= k < |order| && 0 <= t < |qi| ==> order[k] != qi[t])
  }

  lemma IndexedStep(tasks: seq<Task>, queue: seq<Task>, qi: seq<nat>, m: seq<Metrics>, order: seq<nat>,
                    sel: nat, e: Metrics)
    requires Indexed(tasks, queue, qi, m, order)
    requires sel < |queue| && e.task == queue[sel]
    ensures Indexed(tasks, Remove(queue, sel), Remove(qi, sel), m + [e], order + [qi[sel]])
  {
  }

  /** An idle jump taken before entry `k` went no further than the arrival of `t`. */
  ghost predicate IdleBound(m: seq<Metrics>, k: nat, t: Task)
    requires k < |m|
  {
    ClockBefore(m, k) < m[k].start ==> m[k].start <= t.arrival
  }

  /** The timing facts of a non-preemptive run so far: the clock is at or
      after the last finish, past it only when every queued process arrives
      at or after the clock, and every idle jump already taken precedes all
      queued arrivals. */
  ghost predicate Timed(m: seq<Metrics>, queue: seq<Task>, now: int) {
    && ClockBefore(m, |m|) <= now
    && (ClockBefore(m, |m|) < now ==> forall t :: 0 <= t < |queue| ==> now <= queue[t].arrival)
    && Dispatched(m)
    && (forall k, t :: 0 <= k < |m| && 0 <= t < |queue| ==> IdleBound(m, k, queue[t]))
  }

  lemma TimedStep(m: seq<Metrics>, queue: seq<Task>, now: int, sel: nat)
    requires Timed(m, queue, now) && sel < |queue| && queue[sel].arrival <= now
    ensures Timed(m + [RunFrom(queue[sel], now)], Remove(queue, sel), now + queue[sel].burst)
  {
    var e := RunFrom(queue[sel], now);
    var m' := m + [e];
    var q' := Remove(queue, sel);
    assert m'[..|m|] == m;
    assert Dispatched(m') by {
      forall k | 0 <= k < |m'|
        ensures EntryOk(m', k)
      {
        if k < |m| {
          assert EntryOk(m, k);
          assert IdleBound(m, k, queue[sel]);
          assert ClockBefore(m', k) == ClockBefore(m, k);
        }
      }
    }
    forall k, t | 0 <= k < |m'| && 0 <= t < |q'|
      ensures IdleBound(m', k, q'[t])
    {
      var u := if t < sel then t else t + 1;
      assert q'[t] == queue[u];
      if k < |m| {
        assert IdleBound(m, k, queue[u]);
        assert ClockBefore(m', k) == ClockBefore(m, k);
      }
    }
  }

  lemma TimedJump(m: seq<Metrics>, queue: seq<Task>, now: int, next: int)
    requires Timed(m, queue, now)
    requires forall t :: 0 <= t < |queue| ==> now < queue[t].arrival && next <= queue[t].arrival
    requires exists t :: 0 <= t < |queue| && next == queue[t].arrival
    ensures Timed(m, queue, next)
  {
  }

  /** The selection facts of a run so far: `PickedBy` for the entries, and
      every queued process that had arrived when an entry was chosen has a
      key no smaller than that entry's, and a larger input index if equal. */
  ghost predicate Ranked(m: seq<Metrics>, key: Task -> Rank, order: seq<nat>, queue: seq<Task>, qi: seq<nat>)
  {
    && |order| == |m| && |qi| == |queue|
    && PickedBy(m, key, order)
    && forall k, t :: 0 <= k < |m| && 0 <= t < |queue| && queue[t].arrival <= m[k].start ==>
         (!Before(key(queue[t]), key(m[k].task)) && (key(queue[t]) == key(m[k].task) ==> order[k] < qi[t]))
  }

  lemma RankedStep(m: seq<Metrics>, key: Task -> Rank, order: seq<nat>, queue: seq<Task>, qi: seq<nat>,
                   now: int, sel: nat)
    requires Ranked(m, key, order, queue, qi)
    requires sel < |queue| && queue[sel].arrival <= now
    requires forall a, b :: 0 <= a < b < |qi| ==> qi[a] < qi[b]
    requires forall t :: 0 <= t < |queue| && queue[t].arrival <= now ==> !Before(key(queue[t]), key(queue[sel]))
    requires forall t :: 0 <= t < sel && queue[t].arrival <= now ==> Before(key(queue[sel]), key(queue[t]))
    ensures Ranked(m + [RunFrom(queue[sel], now)], key, order + [qi[sel]], Remove(queue, sel), Remove(qi, sel))
  {
    var m' := m + [RunFrom(queue[sel], now)];
    var order' := order + [qi[sel]];
    assert PickedBy(m', key, order') by {
      forall k, j | 0 <= k < j < |m'| && m'[j].task.arrival <= m'[k].start
        ensures !Before(key(m'[j].task), key(m'[k].task))
        ensures key(m'[j].task) == key(m'[k].task) ==> order'[k] < order'[j]
      {
        if j == |m| {
          assert m'[j].task == queue[sel];
        }
      }
    }
  }

  /** The loop invariant of a non-preemptive run. */
  ghost predicate Progress(tasks: seq<Task>, key: Task -> Rank, queue: seq<Task>, qi: seq<nat>, m: seq<Metrics>,
                           order: seq<nat>, slices: seq<Slice>, now: int)
  {
    Indexed(tasks, queue, qi, m, order) && Timed(m, queue, now) && Ranked(m, key, order, queue, qi)
    && Charts(slices, m)
  }

  /** Jumping the idle clock to the earliest queued arrival keeps the
      invariant, and some queued process has then arrived. */
  lemma JumpStep(tasks: seq<Task>, key: Task -> Rank, queue: seq<Task>, qi: seq<nat>, m: seq<Metrics>,
                 order: seq<nat>, slices: seq<Slice>, now: int, next: int)
    requires Progress(tasks, key, queue, qi, m, order, slices, now)
    requires forall t :: 0 <= t < |queue| ==> now < queue[t].arrival && next <= queue[t].arrival
    requires exists t :: 0 <= t < |queue| && next == queue[t].arrival
    ensures Progress(tasks, key, queue, qi, m, order, slices, next)
    ensures exists t :: 0 <= t < |queue| && queue[t].arrival <= next
  {
    TimedJump(m, queue, now, next);
  }

  /** Running the selected process `queue[sel]` to completion keeps the
      invariant. */
  lemma DispatchStep(tasks: seq<Task>, key: Task -> Rank, queue: seq<Task>, qi: seq<nat>, m: seq<Metrics>,
                     order: seq<nat>, slices: seq<Slice>, now: int, sel: nat, e: Metrics)
    requires Progress(tasks, key, queue, qi, m, order, slices, now)
    requires sel < |queue| && queue[sel].arrival <= now && e == RunFrom(queue[sel], now)
    requires forall t :: 0 <= t < |queue| && queue[t].arrival <= now ==> !Before(key(queue[t]), key(queue[sel]))
    requires forall t :: 0 <= t < sel && queue[t].arrival <= now ==> Before(key(queue[sel]), key(queue[t]))
    ensures Progress(tasks, key, Remove(queue, sel), Remove(qi, sel), m + [e], order + [qi[sel]],
                     slices + [Slice(e.task.id, e.start, e.finish)], e.finish)
    ensures TotalWaiting(m + [e]) == TotalWaiting(m) + e.waiting
    ensures TotalTurnaround(m + [e]) == TotalTurnaround(m) + e.turnaround
  {
    IndexedStep(tasks, queue, qi, m, order, sel, e);
    TimedStep(m, queue, now, sel);
    RankedStep(m, key, order, queue, qi, now, sel);
    AppendEntry(slices, m, e);
  }

  /** Runs the selected process `queue[sel]` to completion from `now`: its
      entry and bar are appended, it leaves the queue, the clock moves to its
      finish and the totals grow by its waiting and turnaround times. */
  method Dispatch(ghost tasks: seq<Task>, key: Task -> Rank, queue: seq<Task>, ghost qi: seq<nat>, m: seq<Metrics>,
                  ghost order: seq<nat>, slices: seq<Slice>, now: int, totalWaiting: int, totalTurnaround: int,
                  sel: nat)
    returns (queue': seq<Task>, ghost qi': seq<nat>, m': seq<Metrics>, ghost order': seq<nat>, slices': seq<Slice>,
             now': int, totalWaiting': int, totalTurnaround': int)
    requires Progress(tasks, key, queue, qi, m, order, slices, now)
    requires totalWaiting == TotalWaiting(m) && totalTurnaround == TotalTurnaround(m)
    requires sel < |queue| && queue[sel].arrival <= now
    requires forall t :: 0 <= t < |queue| && queue[t].arrival <= now ==> !Before(key(queue[t]), key(queue[sel]))
    requires forall t :: 0 <= t < sel && queue[t].arrival <= now ==> Before(key(queue[sel]), key(queue[t]))
    ensures Progress(tasks, key, queue', qi', m', order', slices', now')
    ensures totalWaiting' == TotalWaiting(m') && totalTurnaround' == TotalTurnaround(m')
    ensures |queue'| == |queue| - 1
  {
    var e := RunFrom(queue[sel], now);
    DispatchStep(tasks, key, queue, qi, m, order, slices, now, sel, e);
    slices' := slices + [Slice(e.task.id, e.start, e.finish)];
    m' := m + [e];
    order' := order + [qi[sel]];
    queue' := Remove(queue, sel);
    qi' := Remove(qi, sel);
    now' := e.finish;
    totalWaiting' := totalWaiting + e.waiting;
    totalTurnaround' := totalTurnaround + e.turnaround;
  }

  /** The loop shared by shortest job first and priority scheduling: while
      processes remain, run the arrived one with the smallest key to
      completion, or jump the clock to the earliest arrival if none has
      arrived. Distinct ids are what the source relies on to find the chosen
      process in the queue again (the caller rejects duplicate ids). */
  method NonPreemptive(tasks: seq<Task>, key: Task -> Rank) returns (r: Schedule, ghost order: seq<nat>)
    requires DistinctIds(tasks)
    ensures IsPermutation(order, |tasks|)
    ensures |r.metrics| == |tasks|
    ensures forall k :: 0 <= k < |tasks| ==> r.metrics[k].task == tasks[order[k]]
    ensures Dispatched(r.metrics)
    ensures PickedBy(r.metrics, key, order)
    ensures Charts(r.slices, r.metrics) && Totals(r)
  {
    var queue := tasks;
    ghost var qi: seq<nat> := seq(|tasks|, i => i);
    var slices: seq<Slice> := [];
    var metrics: seq<Metrics> := [];
    var now, totalWaiting, totalTurnaround := 0, 0, 0;
    order := [];
    while |queue| > 0
      invariant Progress(tasks, key, queue, qi, metrics, order, slices, now)
      invariant totalWaiting == TotalWaiting(metrics) && totalTurnaround == TotalTurnaround(metrics)
      decreases |queue|, if exists t :: 0 <= t < |queue| && queue[t].arrival <= now then 0 else 1
    {
      var sel := SelectNext(queue, now, key);
      if sel == -1 {
        var next := EarliestArrival(queue);
        JumpStep(tasks, key, queue, qi, metrics, order, slices, now, next);
        now := next;
        continue;
      }
      queue, qi, metrics, order, slices, now, totalWaiting, totalTurnaround
        := Dispatch(tasks, key, queue, qi, metrics, order, slices, now, totalWaiting, totalTurnaround, sel);
    }
    r := Schedule(slices, metrics, totalWaiting, totalTurnaround);
  }

  /** Shortest job first (non-preemptive). */
  method Sjf(tasks: seq<Task>) returns (r: Schedule, ghost order: seq<nat>)
    requires DistinctIds(tasks)
    ensures IsPermutation(order, |tasks|)
    ensures |r.metrics| == |tasks|
    ensures forall k :: 0 <= k < |tasks| ==> r.metrics[k].task == tasks[order[k]]
    ensures Dispatched(r.metrics)
    ensures PickedBy(r.metrics, BurstRank, order)
    ensures Charts(r.slices, r.metrics) && Totals(r)
  {
    r, order := NonPreemptive(tasks, BurstRank);
  }

  /** Non-preemptive priority scheduling (lower number first). */
  method PriorityScheduling(tasks: seq<Task>) returns (r: Schedule, ghost order: seq<nat>)
    requires DistinctIds(tasks)
    ensures IsPermutation(order, |tasks|)
    ensures |r.metrics| == |tasks|
    ensures forall k :: 0 <= k < |tasks| ==> r.metrics[k].task == tasks[order[k]]
    ensures Dispatched(r.metrics)
    ensures PickedBy(r.metrics, PriorityRank, order)
    ensures Charts(r.slices, r.metrics) && Totals(r)
  {
    r, order := NonPreemptive(tasks, PriorityRank);
  }
}
