/** Round robin scheduling: processes enter a FIFO ready queue in stable
    order of arrival; the head runs for at most one time quantum and, if it
    still needs time, goes to the back of the queue behind the processes that
    arrived while it ran. */
module RoundRobinScheduling {
  import opened Common
  import opened CpuScheduling

  /** A queued process with the time it still needs (`remainingTime`). */
  datatype Job = Job(task: Task, remaining: int)

  function JobArrival(j: Job): int { j.task.arrival }

  /** How many queued jobs belong to process `id`. */
  function Occurs(js: seq<Job>, id: string): nat {
    if js == [] then 0
    else Occurs(js[..|js| - 1], id) + (if js[|js| - 1].task.id == id then 1 else 0)
  }

  /** The time the queued jobs of process `id` still need. */
  function Left(js: seq<Job>, id: string): int {
    if js == [] then 0
    else Left(js[..|js| - 1], id) + (if js[|js| - 1].task.id == id then js[|js| - 1].remaining else 0)
  }

  /** The time all queued jobs still need. */
  function Backlog(js: seq<Job>): int {
    if js == [] then 0 else Backlog(js[..|js| - 1]) + js[|js| - 1].remaining
  }

  lemma {:induction false} MeasuresAppend(a: seq<Job>, b: seq<Job>)
    ensures forall id :: Occurs(a + b, id) == Occurs(a, id) + Occurs(b, id)
    ensures forall id :: Left(a + b, id) == Left(a, id) + Left(b, id)
    ensures Backlog(a + b) == Backlog(a) + Backlog(b)
  {
    if b == [] {
      assert a + b == a;
    } else {
      MeasuresAppend(a, b[..|b| - 1]);
      assert (a + b)[..|a + b| - 1] == a + b[..|b| - 1];
    }
  }

  lemma {:induction false} BacklogNonNegative(js: seq<Job>)
    requires forall j :: j in js ==> j.remaining > 0
    ensures Backlog(js) >= 0
  {
    if js != [] {
      assert forall j :: j in js[..|js| - 1] ==> j in js;
      BacklogNonNegative(js[..|js| - 1]);
    }
  }

  lemma {:induction false} LeftAbsent(js: seq<Job>, id: string)
    requires Occurs(js, id) == 0
    ensures Left(js, id) == 0
  {
    if js != [] {
      LeftAbsent(js[..|js| - 1], id);
    }
  }

  /** A job whose id no other job shares accounts for all of that id. */
  lemma {:induction false} MeasuresUnique(js: seq<Job>, t: nat)
    requires t < |js|
    requires forall u :: 0 <= u < |js| && u != t ==> js[u].task.id != js[t].task.id
    ensures Occurs(js, js[t].task.id) == 1 && Left(js, js[t].task.id) == js[t].remaining
  {
    var id := js[t].task.id;
    var p := js[..|js| - 1];
    if t == |js| - 1 {
      MeasuresAbsent(p, id);
    } else {
      MeasuresUnique(p, t);
    }
  }

  lemma {:induction false} MeasuresAbsent(js: seq<Job>, id: string)
    requires forall u :: 0 <= u < |js| ==> js[u].task.id != id
    ensures Occurs(js, id) == 0 && Left(js, id) == 0
  {
    if js != [] {
      MeasuresAbsent(js[..|js| - 1], id);
    }
  }

  /** Jobs of pairwise distinct processes count each id at most once. */
  lemma {:induction false} OccursDistinct(js: seq<Job>, id: string)
    requires forall a, b :: 0 <= a < b < |js| ==> js[a].task.id != js[b].task.id
    ensures Occurs(js, id) <= 1
  {
    if js != [] {
      var p := js[..|js| - 1];
      OccursDistinct(p, id);
      if js[|js| - 1].task.id == id {
        MeasuresAbsent(p, id);
      }
    }
  }

  /** The measures depend only on which jobs are queued, not on their order. */
  lemma {:induction false} MeasuresPermutation(a: seq<Job>, b: seq<Job>)
    requires multiset(a) == multiset(b)
    ensures forall id :: Occurs(a, id) == Occurs(b, id) && Left(a, id) == Left(b, id)
    ensures Backlog(a) == Backlog(b)
  {
    if a == [] {
      assert |b| == |multiset(b)| == 0;
    } else {
      var x := a[|a| - 1];
      var a' := a[..|a| - 1];
      assert a == a' + [x];
      assert x in multiset(b);
      var i :| 0 <= i < |b| && b[i] == x;
      var b' := b[..i] + b[i + 1..];
      assert b == b[..i] + [x] + b[i + 1..];
      assert multiset(b) == multiset(b[..i]) + multiset{x} + multiset(b[i + 1..]);
      assert multiset(a) == multiset(a') + multiset{x};
      assert multiset(b') == multiset(b[..i]) + multiset(b[i + 1..]);
      assert multiset(b') == multiset(b) - multiset{x};
      assert multiset(a') == multiset(a) - multiset{x};
      MeasuresPermutation(a', b');
      MeasuresAppend(a', [x]);
      MeasuresAppend(b[..i], [x]);
      MeasuresAppend(b[..i] + [x], b[i + 1..]);
      MeasuresAppend(b[..i], b[i + 1..]);
    }
  }

  /** A pending job joins the ready queue once it has arrived by `now` (and,
      on the admission at the top of each round, still needs time). */
  predicate Admits(j: Job, now: int, positive: bool) {
    j.task.arrival <= now && (!positive || j.remaining > 0)
  }

  /** The jobs of `s` that are admitted, in order. */
  function Admitted(s: seq<Job>, now: int, positive: bool): seq<Job> {
    if s == [] then []
    else Admitted(s[..|s| - 1], now, positive)
         + (if Admits(s[|s| - 1], now, positive) then [s[|s| - 1]] else [])
  }

  /** The jobs of `s` that stay pending, in order. */
  function Rejected(s: seq<Job>, now: int, positive: bool): seq<Job> {
    if s == [] then []
    else Rejected(s[..|s| - 1], now, positive)
         + (if Admits(s[|s| - 1], now, positive) then [] else [s[|s| - 1]])
  }

  /** Admission splits the pending jobs without losing or adding any. */
  lemma {:induction false} AdmitSplit(s: seq<Job>, now: int, positive: bool)
    ensures multiset(Admitted(s, now, positive)) + multiset(Rejected(s, now, positive)) == multiset(s)
  {
    if s != [] {
      var p, x := s[..|s| - 1], s[|s| - 1];
      AdmitSplit(p, now, positive);
      assert s == p + [x];
      assert multiset(s) == multiset(p) + multiset{x};
      if Admits(x, now, positive) {
        assert Admitted(s, now, positive) == Admitted(p, now, positive) + [x];
        assert Rejected(s, now, positive) == Rejected(p, now, positive);
      } else {
        assert Admitted(s, now, positive) == Admitted(p, now, positive);
        assert Rejected(s, now, positive) == Rejected(p, now, positive) + [x];
      }
    }
  }

  /** Every admitted job qualifies and every rejected one does not. */
  lemma {:induction false} AdmitChoice(s: seq<Job>, now: int, positive: bool)
    ensures forall t :: 0 <= t < |Admitted(s, now, positive)| ==> Admits(Admitted(s, now, positive)[t], now, positive)
    ensures forall t :: 0 <= t < |Rejected(s, now, positive)| ==> !Admits(Rejected(s, now, positive)[t], now, positive)
  {
    if s != [] {
      AdmitChoice(s[..|s| - 1], now, positive);
    }
  }

  /** One admission pass: every pending job that qualifies is spliced out of
      the pending list and pushed onto the ready queue, in pending order. */
  method Admit(ready: seq<Job>, pending: seq<Job>, now: int, positive: bool)
    returns (ready': seq<Job>, pending': seq<Job>)
    ensures ready' == ready + Admitted(pending, now, positive)
    ensures pending' == Rejected(pending, now, positive)
  {
    ready', pending' := ready, pending;
    ghost var p := 0;
    var i := 0;
    while i < |pending'|
      invariant 0 <= i <= |pending'| && 0 <= p <= |pending|
      invariant pending'[..i] == Rejected(pending[..p], now, positive)
      invariant pending'[i..] == pending[p..]
      invariant ready' == ready + Admitted(pending[..p], now, positive)
      decreases |pending'| - i
    {
      assert pending'[i] == pending[p];
      assert pending[..p + 1][..p] == pending[..p];
      if Admits(pending'[i], now, positive) {
        ready' := ready' + [pending'[i]];
        pending' := pending'[..i] + pending'[i + 1..];
      } else {
        i := i + 1;
      }
      p := p + 1;
    }
    assert pending'[i..] == [];
    assert pending[..p] == pending;
  }

  /** Every queued job still needs time. */
  predicate Live(js: seq<Job>) {
    forall j :: j in js ==> j.remaining > 0
  }

  /** An admission keeps the jobs alive and the backlog; when it readies
      nothing, the ready queue was empty and nothing pending had arrived. */
  lemma AdmitLive(rq: seq<Job>, pq: seq<Job>, now: int, positive: bool)
    requires Live(rq + pq)
    ensures Live(rq + Admitted(pq, now, positive) + Rejected(pq, now, positive))
    ensures Backlog(rq + Admitted(pq, now, positive) + Rejected(pq, now, positive)) == Backlog(rq + pq) >= 0
    ensures positive ==> forall j :: j in Rejected(pq, now, positive) ==> now < j.task.arrival
    ensures positive && rq + Admitted(pq, now, positive) == [] ==> Idle(rq, pq, now)
  {
    var ad, rj := Admitted(pq, now, positive), Rejected(pq, now, positive);
    AdmitSplit(pq, now, positive);
    assert multiset(rq + ad + rj) == multiset(rq + pq);
    MeasuresPermutation(rq + ad + rj, rq + pq);
    BacklogNonNegative(rq + pq);
    LiveMultiset(rq + ad + rj, rq + pq);
    if positive {
      AdmitWaits(pq, now);
      if rq + ad == [] {
        AdmitNone(rq, pq, now, positive);
      }
    }
  }

  /** The jobs an admission at the top of a round leaves pending have not
      arrived yet. */
  lemma AdmitWaits(pq: seq<Job>, now: int)
    requires Live(pq)
    ensures forall j :: j in Rejected(pq, now, true) ==> now < j.task.arrival
  {
    AdmitSplit(pq, now, true);
    AdmitChoice(pq, now, true);
    forall j | j in Rejected(pq, now, true)
      ensures now < j.task.arrival
    {
      assert j in multiset(Rejected(pq, now, true));
      assert j in multiset(pq);
      var t :| 0 <= t < |Rejected(pq, now, true)| && Rejected(pq, now, true)[t] == j;
    }
  }

  /** The head job leaving for good shrinks the backlog. */
  lemma FinishLive(q: seq<Job>, pq: seq<Job>)
    requires q != [] && Live(q + pq)
    ensures Live(q[1..] + pq) && 0 <= Backlog(q[1..] + pq) < Backlog(q + pq)
  {
    assert q + pq == [q[0]] + (q[1..] + pq);
    MeasuresHead(q[0], q[1..] + pq);
    assert q[0] in q + pq;
    BacklogNonNegative(q[1..] + pq);
  }

  /** Whether every job needs time depends only on which jobs are queued. */
  lemma LiveMultiset(a: seq<Job>, b: seq<Job>)
    requires multiset(a) == multiset(b) && Live(b)
    ensures Live(a)
  {
    forall j | j in a
      ensures j.remaining > 0
    {
      assert j in multiset(a);
      assert j in b;
    }
  }

  /** The head job rejoining the back with less time left, behind the jobs
      admitted at `now`, shrinks the backlog. */
  lemma RequeueLive(q: seq<Job>, pq: seq<Job>, now: int, j': Job)
    requires q != [] && Live(q + pq) && j'.task == q[0].task && 0 < j'.remaining < q[0].remaining
    ensures Live(q[1..] + Admitted(pq, now, false) + [j'] + Rejected(pq, now, false))
    ensures 0 <= Backlog(q[1..] + Admitted(pq, now, false) + [j'] + Rejected(pq, now, false)) < Backlog(q + pq)
  {
    var q', pq' := q[1..] + Admitted(pq, now, false) + [j'], Rejected(pq, now, false);
    RequeueMultiset(q, pq, now, j', q', pq');
    RequeueBacklog(q, pq, j', q' + pq');
    RequeueAlive(q, pq, j', q' + pq');
    BacklogNonNegative(q' + pq');
  }

  lemma RequeueBacklog(q: seq<Job>, pq: seq<Job>, j': Job, q': seq<Job>)
    requires q != [] && j'.task == q[0].task && multiset(q') == multiset(q[1..] + pq + [j'])
    ensures Backlog(q') == Backlog(q + pq) - (q[0].remaining - j'.remaining)
  {
    assert q + pq == [q[0]] + (q[1..] + pq);
    MeasuresShift(q + pq, q', q[1..] + pq, q[0], j');
  }

  lemma RequeueAlive(q: seq<Job>, pq: seq<Job>, j': Job, q': seq<Job>)
    requires q != [] && Live(q + pq) && j'.remaining > 0 && multiset(q') == multiset(q[1..] + pq + [j'])
    ensures Live(q')
  {
    forall j | j in q[1..] + pq + [j']
      ensures j.remaining > 0
    {
      if j != j' {
        assert j in q + pq;
      }
    }
    LiveMultiset(q', q[1..] + pq + [j']);
  }

  /** Nothing is ready and nothing pending has arrived by `now`. */
  predicate Idle(rq: seq<Job>, pq: seq<Job>, now: int) {
    rq == [] && forall j :: j in pq ==> now < j.task.arrival
  }

  /** The chart round robin draws from ready queue `rq`, pending jobs `pq`
      and clock `now`, one round at a time: the round begins by moving the
      pending jobs that have arrived (and need time) to the back of the
      ready queue, in pending order. */
  function Trace(quantum: int, rq: seq<Job>, pq: seq<Job>, now: int): seq<Slice>
    requires quantum >= 1 && Live(rq + pq)
    decreases Backlog(rq + pq), if Idle(rq, pq, now) then 1 else 0, 1
  {
    AdmitLive(rq, pq, now, true);
    Turn(quantum, rq + Admitted(pq, now, true), Rejected(pq, now, true), now)
  }

  /** The time the head job `j` runs in its turn. */
  function Exec(quantum: int, j: Job): (e: int)
    ensures e <= quantum && e <= j.remaining && (e == quantum || e == j.remaining)
  {
    if quantum < j.remaining then quantum else j.remaining
  }

  /** The ready queue after the head's turn: without the head if it is
      done, otherwise with the jobs that arrived meanwhile and then the head
      with less time left at the back. */
  function Requeued(quantum: int, rq: seq<Job>, pq: seq<Job>, now: int): seq<Job>
    requires rq != []
  {
    if rq[0].remaining <= quantum then rq[1..]
    else rq[1..] + Admitted(pq, now + quantum, false) + [rq[0].(remaining := rq[0].remaining - quantum)]
  }

  /** The pending jobs after the head's turn. */
  function Waiting(quantum: int, rq: seq<Job>, pq: seq<Job>, now: int): seq<Job>
    requires rq != []
  {
    if rq[0].remaining <= quantum then pq else Rejected(pq, now + quantum, false)
  }

  /** The head's turn keeps every job alive and shrinks the backlog. */
  lemma TurnLive(quantum: int, rq: seq<Job>, pq: seq<Job>, now: int)
    requires quantum >= 1 && Live(rq + pq) && rq != []
    ensures Live(Requeued(quantum, rq, pq, now) + Waiting(quantum, rq, pq, now))
    ensures 0 <= Backlog(Requeued(quantum, rq, pq, now) + Waiting(quantum, rq, pq, now)) < Backlog(rq + pq)
  {
    if rq[0].remaining <= quantum {
      DoneLive(quantum, rq, pq, now);
    } else {
      AgainLive(quantum, rq, pq, now);
    }
  }

  lemma DoneLive(quantum: int, rq: seq<Job>, pq: seq<Job>, now: int)
    requires quantum >= 1 && Live(rq + pq) && rq != [] && rq[0].remaining <= quantum
    ensures Live(Requeued(quantum, rq, pq, now) + Waiting(quantum, rq, pq, now))
    ensures 0 <= Backlog(Requeued(quantum, rq, pq, now) + Waiting(quantum, rq, pq, now)) < Backlog(rq + pq)
  {
    assert Requeued(quantum, rq, pq, now) + Waiting(quantum, rq, pq, now) == rq[1..] + pq;
    FinishLive(rq, pq);
  }

  lemma AgainLive(quantum: int, rq: seq<Job>, pq: seq<Job>, now: int)
    requires quantum >= 1 && Live(rq + pq) && rq != [] && quantum < rq[0].remaining
    ensures Live(Requeued(quantum, rq, pq, now) + Waiting(quantum, rq, pq, now))
    ensures 0 <= Backlog(Requeued(quantum, rq, pq, now) + Waiting(quantum, rq, pq, now)) < Backlog(rq + pq)
  {
    var j' := rq[0].(remaining := rq[0].remaining - quantum);
    assert Requeued(quantum, rq, pq, now) + Waiting(quantum, rq, pq, now)
        == rq[1..] + Admitted(pq, now + quantum, false) + [j'] + Rejected(pq, now + quantum, false);
    RequeueLive(rq, pq, now + quantum, j');
  }

  /** The rest of the round: with nothing ready, the clock jumps to the
      first pending arrival (or the chart ends when nothing is pending);
      otherwise the head runs for the quantum or until done. */
  function Turn(quantum: int, rq: seq<Job>, pq: seq<Job>, now: int): seq<Slice>
    requires quantum >= 1 && Live(rq + pq)
    requires rq == [] ==> forall j :: j in pq ==> now < j.task.arrival
    decreases Backlog(rq + pq), if Idle(rq, pq, now) then 1 else 0, 0
  {
    if rq == [] then
      if pq == [] then []
      else
        assert pq[0] in pq;
        Trace(quantum, [], pq, pq[0].task.arrival)
    else
      TurnLive(quantum, rq, pq, now);
      var e := Exec(quantum, rq[0]);
      [Slice(rq[0].task.id, now, now + e)]
      + Trace(quantum, Requeued(quantum, rq, pq, now), Waiting(quantum, rq, pq, now), now + e)
  }

  /** A round begins with the admission. */
  lemma TraceAdmit(quantum: int, rq: seq<Job>, pq: seq<Job>, now: int)
    requires quantum >= 1 && Live(rq + pq)
    ensures Live(rq + Admitted(pq, now, true) + Rejected(pq, now, true))
    ensures forall j :: j in Rejected(pq, now, true) ==> now < j.task.arrival
    ensures rq + Admitted(pq, now, true) == [] ==> Idle(rq, pq, now)
    ensures Backlog(rq + Admitted(pq, now, true) + Rejected(pq, now, true)) == Backlog(rq + pq)
    ensures Trace(quantum, rq, pq, now)
         == Turn(quantum, rq + Admitted(pq, now, true), Rejected(pq, now, true), now)
  {
    AdmitLive(rq, pq, now, true);
  }

  /** The chart drawn so far followed by the rest of the trace stays the
      same across one turn of the head job. */
  lemma TraceRound(quantum: int, rq: seq<Job>, pq: seq<Job>, now: int, slices: seq<Slice>,
                   rq': seq<Job>, pq': seq<Job>, now': int, slices': seq<Slice>)
    requires quantum >= 1 && Live(rq + pq) && rq != []
    requires rq' == Requeued(quantum, rq, pq, now) && pq' == Waiting(quantum, rq, pq, now)
    requires now' == now + Exec(quantum, rq[0]) && slices' == slices + [Slice(rq[0].task.id, now, now')]
    ensures Live(rq' + pq')
    ensures slices' + Trace(quantum, rq', pq', now') == slices + Turn(quantum, rq, pq, now)
  {
    TurnStep(quantum, rq, pq, now);
    var rest := Trace(quantum, rq', pq', now');
    assert slices' + rest == slices + ([Slice(rq[0].task.id, now, now')] + rest);
  }

  /** The queues and clock the head's turn leaves, as `Requeued`, `Waiting`
      and `Exec` describe them. */
  lemma TurnArgs(quantum: int, rq: seq<Job>, pq: seq<Job>, now: int, rq': seq<Job>, pq': seq<Job>, now': int)
    requires quantum >= 1 && rq != []
    requires var job := rq[0];
      && now' == now + (if quantum < job.remaining then quantum else job.remaining)
      && (job.remaining <= quantum ==> rq' == rq[1..] && pq' == pq)
      && (quantum < job.remaining ==>
            && rq' == rq[1..] + Admitted(pq, now', false) + [job.(remaining := job.remaining - quantum)]
            && pq' == Rejected(pq, now', false))
    ensures rq' == Requeued(quantum, rq, pq, now) && pq' == Waiting(quantum, rq, pq, now)
    ensures now' == now + Exec(quantum, rq[0])
  {
  }

  /** With a job ready, the round draws one bar for it. */
  lemma TurnStep(quantum: int, rq: seq<Job>, pq: seq<Job>, now: int)
    requires quantum >= 1 && Live(rq + pq) && rq != []
    ensures Live(Requeued(quantum, rq, pq, now) + Waiting(quantum, rq, pq, now))
    ensures Turn(quantum, rq, pq, now)
         == [Slice(rq[0].task.id, now, now + Exec(quantum, rq[0]))]
            + Trace(quantum, Requeued(quantum, rq, pq, now), Waiting(quantum, rq, pq, now), now + Exec(quantum, rq[0]))
  {
    TurnLive(quantum, rq, pq, now);
  }

  /** The chart drawn so far, followed by the trace from the current state,
      is the trace from the start. */
  ghost predicate Drawn(quantum: int, pending: seq<Job>, start: int, slices: seq<Slice>,
                        rq: seq<Job>, pq: seq<Job>, now: int)
  {
    && quantum >= 1 && Live([] + pending) && Live(rq + pq)
    && slices + Trace(quantum, rq, pq, now) == Trace(quantum, [], pending, start)
  }

  /** A round that readies nothing moves the clock to the first pending
      arrival and draws no bar. */
  lemma DrawnJump(quantum: int, pending: seq<Job>, start: int, slices: seq<Slice>,
                  rq: seq<Job>, pq: seq<Job>, now: int)
    requires Drawn(quantum, pending, start, slices, rq, pq, now)
    requires rq + Admitted(pq, now, true) == [] && Rejected(pq, now, true) != []
    ensures var pq' := Rejected(pq, now, true);
      && Drawn(quantum, pending, start, slices, [], pq', pq'[0].task.arrival)
      && Idle(rq, pq, now) && !Idle([], pq', pq'[0].task.arrival)
      && Backlog([] + pq') == Backlog(rq + pq)
  {
    TraceAdmit(quantum, rq, pq, now);
    var pq' := Rejected(pq, now, true);
    assert [] + pq' == rq + Admitted(pq, now, true) + pq';
    assert pq'[0] in pq';
  }

  /** A round in which the head of the ready queue takes its turn draws
      its bar and shrinks the backlog. */
  lemma DrawnRun(quantum: int, pending: seq<Job>, start: int, slices: seq<Slice>,
                 rq: seq<Job>, pq: seq<Job>, now: int,
                 slices': seq<Slice>, rq': seq<Job>, pq': seq<Job>, now': int)
    requires Drawn(quantum, pending, start, slices, rq, pq, now)
    requires var rq1, pq1 := rq + Admitted(pq, now, true), Rejected(pq, now, true);
      && rq1 != []
      && rq' == Requeued(quantum, rq1, pq1, now) && pq' == Waiting(quantum, rq1, pq1, now)
      && now' == now + Exec(quantum, rq1[0]) && slices' == slices + [Slice(rq1[0].task.id, now, now')]
    ensures Drawn(quantum, pending, start, slices', rq', pq', now')
    ensures Backlog(rq' + pq') < Backlog(rq + pq)
  {
    TraceAdmit(quantum, rq, pq, now);
    var rq1, pq1 := rq + Admitted(pq, now, true), Rejected(pq, now, true);
    TraceRound(quantum, rq1, pq1, now, slices, rq', pq', now', slices');
    TurnLive(quantum, rq1, pq1, now);
  }

  /** Once nothing is queued, the chart drawn is the whole trace. */
  lemma DrawnAll(quantum: int, pending: seq<Job>, start: int, slices: seq<Slice>, now: int)
    requires Drawn(quantum, pending, start, slices, [], [], now)
    ensures slices == Trace(quantum, [], pending, start)
  {
    assert Trace(quantum, [], [], now) == [];
  }

  /** Each process as a job holding its whole burst, in input order. */
  function Jobs(tasks: seq<Task>): (js: seq<Job>)
    ensures |js| == |tasks| && forall k :: 0 <= k < |tasks| ==> js[k] == Job(tasks[k], tasks[k].burst)
  {
    seq(|tasks|, k requires 0 <= k < |tasks| => Job(tasks[k], tasks[k].burst))
  }

  /** The chart of round robin over `tasks`: every process pending in stable
      order of arrival, the clock at the first arrival (or 0). */
  function RoundRobinTrace(tasks: seq<Task>, quantum: int): seq<Slice>
    requires quantum >= 1 && forall k :: 0 <= k < |tasks| ==> tasks[k].burst > 0
  {
    var pq := SortBy(Jobs(tasks), JobArrival);
    SortedLive(tasks, pq);
    Trace(quantum, [], pq, if |pq| > 0 && pq[0].task.arrival > 0 then pq[0].task.arrival else 0)
  }

  /** With nothing pending, a round is the head's turn. */
  lemma ReadyTurn(quantum: int, rq: seq<Job>, now: int)
    requires quantum >= 1 && Live(rq + []) && rq != []
    ensures Live(Requeued(quantum, rq, [], now) + [])
    ensures Trace(quantum, rq, [], now)
         == [Slice(rq[0].task.id, now, now + Exec(quantum, rq[0]))]
            + Trace(quantum, Requeued(quantum, rq, [], now), [], now + Exec(quantum, rq[0]))
  {
    TraceAdmit(quantum, rq, [], now);
    assert rq + Admitted([], now, true) == rq;
    TurnStep(quantum, rq, [], now);
  }

  /** When every pending job qualifies, all of them are admitted in order. */
  lemma {:induction false} AdmitEvery(s: seq<Job>, now: int, positive: bool)
    requires forall i :: 0 <= i < |s| ==> Admits(s[i], now, positive)
    ensures Admitted(s, now, positive) == s && Rejected(s, now, positive) == []
  {
    if s != [] {
      AdmitEvery(s[..|s| - 1], now, positive);
      assert s == s[..|s| - 1] + [s[|s| - 1]];
    }
  }

  /** Two processes arriving together with a burst of 4 and a quantum of 2
      take turns: A, B, A, B. The process that used up its quantum goes
      behind the one already waiting. */
  lemma {:induction false} TakeTurns()
    ensures RoundRobinTrace([Task("A", 0, 4, None), Task("B", 0, 4, None)], 2)
         == [Slice("A", 0, 2), Slice("B", 2, 4), Slice("A", 4, 6), Slice("B", 6, 8)]
  {
    var tasks := [Task("A", 0, 4, None), Task("B", 0, 4, None)];
    var a, b := Job(tasks[0], 4), Job(tasks[1], 4);
    assert Jobs(tasks) == [a, b];
    assert [a, b][1..] == [b];
    assert SortBy([a, b], JobArrival) == [a, b];
    TakeTurnsFrom0();
  }

  /** The same chart from the pending processes at time 0: A, B, A, B. */
  lemma {:induction false} TakeTurnsFrom0()
    ensures Trace(2, [], [Job(Task("A", 0, 4, None), 4), Job(Task("B", 0, 4, None), 4)], 0)
         == [Slice("A", 0, 2), Slice("B", 2, 4), Slice("A", 4, 6), Slice("B", 6, 8)]
  {
    var a, b := Job(Task("A", 0, 4, None), 4), Job(Task("B", 0, 4, None), 4);
    AdmitBoth();
    TurnStep(2, [a, b], [], 0);
    assert Requeued(2, [a, b], [], 0) == [b, a.(remaining := 2)];
    assert Waiting(2, [a, b], [], 0) == [];
    TakeTurnsFrom2();
  }

  /** At time 0 both processes are admitted, A first. */
  lemma AdmitBoth()
    ensures var a, b := Job(Task("A", 0, 4, None), 4), Job(Task("B", 0, 4, None), 4);
      Trace(2, [], [a, b], 0) == Turn(2, [a, b], [], 0)
  {
    var a, b := Job(Task("A", 0, 4, None), 4), Job(Task("B", 0, 4, None), 4);
    AdmitEvery([a, b], 0, true);
    TraceAdmit(2, [], [a, b], 0);
    assert [] + [a, b] == [a, b];
  }

  /** The rest of the same chart, from time 2: B, A, B. */
  lemma {:induction false} TakeTurnsFrom2()
    ensures Trace(2, [Job(Task("B", 0, 4, None), 4), Job(Task("A", 0, 4, None), 2)], [], 2)
         == [Slice("B", 2, 4), Slice("A", 4, 6), Slice("B", 6, 8)]
  {
    var b, a2 := Job(Task("B", 0, 4, None), 4), Job(Task("A", 0, 4, None), 2);
    ReadyTurn(2, [b, a2], 2);
    assert Requeued(2, [b, a2], [], 2) == [a2, b.(remaining := 2)];
    TakeTurnsFrom4();
  }

  /** The end of the same chart, from time 4: A, B. */
  lemma {:induction false} TakeTurnsFrom4()
    ensures Trace(2, [Job(Task("A", 0, 4, None), 2), Job(Task("B", 0, 4, None), 2)], [], 4)
         == [Slice("A", 4, 6), Slice("B", 6, 8)]
  {
    var a2, b2 := Job(Task("A", 0, 4, None), 2), Job(Task("B", 0, 4, None), 2);
    ReadyTurn(2, [a2, b2], 4);
    assert Requeued(2, [a2, b2], [], 4) == [b2];
    ReadyTurn(2, [b2], 6);
    assert Requeued(2, [b2], [], 6) == [];
    TraceAdmit(2, [], [], 8);
    assert Trace(2, [b2], [], 6) == [Slice("B", 6, 8)];
  }

  lemma SortedLive(tasks: seq<Task>, pq: seq<Job>)
    requires forall k :: 0 <= k < |tasks| ==> tasks[k].burst > 0
    requires multiset(pq) == multiset(Jobs(tasks))
    ensures Live([] + pq)
  {
    assert [] + pq == pq;
    forall j | j in pq
      ensures j.remaining > 0
    {
      assert j in multiset(Jobs(tasks));
    }
  }

  /** The processing time given to process `id` by the chart. */
  function Served(s: seq<Slice>, id: string): int {
    if s == [] then 0
    else Served(s[..|s| - 1], id) + (if s[|s| - 1].id == id then s[|s| - 1].end - s[|s| - 1].start else 0)
  }

  /** The start of the first bar of process `id`, if any. */
  function Began(s: seq<Slice>, id: string): Option<int> {
    if s == [] then None
    else
      var b := Began(s[..|s| - 1], id);
      if b.None? && s[|s| - 1].id == id then Some(s[|s| - 1].start) else b
  }

  /** The end of the last bar of process `id`, if any. */
  function Ended(s: seq<Slice>, id: string): Option<int> {
    if s == [] then None
    else if s[|s| - 1].id == id then Some(s[|s| - 1].end)
    else Ended(s[..|s| - 1], id)
  }

  /** Bars follow each other in time without overlapping. */
  predicate TimeOrdered(s: seq<Slice>) {
    forall i, j :: 0 <= i < j < |s| ==> s[i].end <= s[j].start
  }

  /** The result entry of a finished process: it started with its first
      bar, finished with its last, and its times are derived from those. */
  ghost predicate Finished(e: Metrics, s: seq<Slice>) {
    && Derived(e)
    && Began(s, e.task.id) == Some(e.start)
    && Ended(s, e.task.id) == Some(e.finish)
    && e.task.arrival <= e.start
  }

  /** What is known of input process `x` while `queued` are the jobs in the
      ready and pending queues: the chart has served it its burst minus what
      its job still needs; its start time is set exactly when it has run; and
      once it is no longer queued its result entry is final. */
  ghost predicate Account(tasks: seq<Task>, x: nat, queued: seq<Job>, slices: seq<Slice>, res: seq<Metrics>)
    requires x < |tasks| && |res| == |tasks|
  {
    var id := tasks[x].id;
    && res[x].task == tasks[x]
    && Served(slices, id) + Left(queued, id) == tasks[x].burst
    && (Occurs(queued, id) == 0 ==> Finished(res[x], slices))
    && (res[x].start < 0 <==> Began(slices, id).None?)
    && (Began(slices, id).Some? ==> res[x].start == Began(slices, id).value && tasks[x].arrival <= res[x].start)
  }

  /** The bars so far: each at most one quantum long and positive, in time
      order, ending by `now`, and none before its process arrived. */
  ghost predicate Chart(slices: seq<Slice>, tasks: seq<Task>, quantum: int, now: int) {
    && (forall i :: 0 <= i < |slices| ==> 0 < slices[i].end - slices[i].start <= quantum && 0 <= slices[i].start)
    && TimeOrdered(slices)
    && (|slices| > 0 ==> slices[|slices| - 1].end <= now)
    && (forall i, k :: 0 <= i < |slices| && 0 <= k < |tasks| && slices[i].id == tasks[k].id ==>
          tasks[k].arrival <= slices[i].start)
  }

  /** The queues: every input process is completed, ready or pending; every
      queued job is an input process that still needs time, at most one per
      id; the ready ones have arrived. */
  ghost predicate Queues(tasks: seq<Task>, rq: seq<Job>, pq: seq<Job>, now: int, completed: int) {
    && completed + |rq| + |pq| == |tasks|
    && 0 <= now
    && (forall j :: j in rq + pq ==> j.task in tasks && j.remaining > 0)
    && (forall j :: j in rq ==> j.task.arrival <= now)
    && (forall id :: Occurs(rq + pq, id) <= 1)
  }

  /** The first index of a process with id `id` (`find` by id). */
  method FindById(tasks: seq<Task>, id: string) returns (x: nat)
    requires exists k :: 0 <= k < |tasks| && tasks[k].id == id
    ensures x < |tasks| && tasks[x].id == id
    ensures forall k :: 0 <= k < x ==> tasks[k].id != id
  {
    x := 0;
    while tasks[x].id != id
      invariant x < |tasks|
      invariant exists k :: x <= k < |tasks| && tasks[k].id == id
      invariant forall k :: 0 <= k < x ==> tasks[k].id != id
      decreases |tasks| - x
    {
      x := x + 1;
    }
  }

  lemma SlicesAppend(s: seq<Slice>, b: Slice)
    ensures forall id :: Served(s + [b], id) == Served(s, id) + (if b.id == id then b.end - b.start else 0)
    ensures forall id :: Began(s + [b], id) == (if Began(s, id).None? && b.id == id then Some(b.start) else Began(s, id))
    ensures forall id :: Ended(s + [b], id) == (if b.id == id then Some(b.end) else Ended(s, id))
  {
    assert (s + [b])[..|s|] == s;
  }

  /** The state at the top of the round: admitting the pending jobs that
      have arrived leaves the queued jobs, and so every account, unchanged. */
  lemma AdmitKeeps(tasks: seq<Task>, rq: seq<Job>, pq: seq<Job>, now: int, completed: int, positive: bool)
    requires Queues(tasks, rq, pq, now, completed)
    ensures var rq', pq' := rq + Admitted(pq, now, positive), Rejected(pq, now, positive);
      && Queues(tasks, rq', pq', now, completed)
      && (forall id :: Occurs(rq' + pq', id) == Occurs(rq + pq, id) && Left(rq' + pq', id) == Left(rq + pq, id))
      && Backlog(rq' + pq') == Backlog(rq + pq)
      && multiset(pq) == multiset(Admitted(pq, now, positive)) + multiset(pq')
      && (forall j :: j in pq' ==> now < j.task.arrival || (positive && j.remaining <= 0))
  {
    var ad, rj := Admitted(pq, now, positive), Rejected(pq, now, positive);
    AdmitSplit(pq, now, positive);
    AdmitChoice(pq, now, positive);
    assert multiset(rq + ad + rj) == multiset(rq + pq);
    MeasuresPermutation(rq + ad + rj, rq + pq);
    assert rq + ad + rj == (rq + ad) + rj;
    assert |ad| + |rj| == |pq| by {
      assert |multiset(ad)| + |multiset(rj)| == |multiset(pq)|;
    }
    forall j | j in (rq + ad) + rj
      ensures j in rq + pq
    {
      assert j in multiset(rq + ad + rj);
    }
  }

  /** Taking the head job off the queue. */
  lemma MeasuresHead(j: Job, rest: seq<Job>)
    ensures forall id :: Occurs([j] + rest, id) == Occurs(rest, id) + (if id == j.task.id then 1 else 0)
    ensures forall id :: Left([j] + rest, id) == Left(rest, id) + (if id == j.task.id then j.remaining else 0)
    ensures Backlog([j] + rest) == Backlog(rest) + j.remaining
  {
    MeasuresAppend([j], rest);
    forall id
      ensures Occurs([j], id) == (if id == j.task.id then 1 else 0)
      ensures Left([j], id) == (if id == j.task.id then j.remaining else 0)
    {
      assert [j][..0] == [];
    }
    assert [j][..0] == [];
  }

  /** A queued job is counted under its id. */
  lemma {:induction false} OccursMember(js: seq<Job>, j: Job)
    requires j in js
    ensures Occurs(js, j.task.id) >= 1
  {
    if js[|js| - 1] != j {
      assert j in js[..|js| - 1] by {
        assert js == js[..|js| - 1] + [js[|js| - 1]];
      }
      OccursMember(js[..|js| - 1], j);
    }
  }

  /** The accounts across a round in which `job` (input process `jx`) ran
      for `exec` from `now`, finishing it when `done`. */
  lemma RunAccounts(tasks: seq<Task>, q: seq<Job>, q': seq<Job>, slices: seq<Slice>, slices': seq<Slice>,
                    res: seq<Metrics>, res': seq<Metrics>, job: Job, jx: nat, exec: int, now: int, done: bool)
    requires DistinctIds(tasks) && jx < |tasks| && |res| == |tasks| && |res'| == |tasks|
    requires tasks[jx] == job.task && 0 < exec && 0 <= now && job.task.arrival <= now
    requires forall x :: 0 <= x < |tasks| ==> Account(tasks, x, q, slices, res)
    requires Occurs(q, job.task.id) == 1
    requires done <==> exec == job.remaining
    requires forall id :: Occurs(q', id) == Occurs(q, id) - (if done && id == job.task.id then 1 else 0)
    requires forall id :: Left(q', id) == Left(q, id) - (if id == job.task.id then exec else 0)
    requires forall x :: 0 <= x < |tasks| && x != jx ==> res'[x] == res[x]
    requires res'[jx] == if done then Completed(Started(res[jx], now), now + exec) else Started(res[jx], now)
    requires slices' == slices + [Slice(job.task.id, now, now + exec)]
    ensures forall x :: 0 <= x < |tasks| ==> Account(tasks, x, q', slices', res')
  {
    var b := Slice(job.task.id, now, now + exec);
    SlicesAppend(slices, b);
    forall x | 0 <= x < |tasks|
      ensures Account(tasks, x, q', slices', res')
    {
      assert Account(tasks, x, q, slices, res);
      if x != jx {
        assert tasks[x].id != job.task.id;
      } else {
        assert Occurs(q', job.task.id) == 0 ==> done;
      }
    }
  }

  /** The chart after a bar of `exec` for `job` from `now`. */
  lemma RunChart(slices: seq<Slice>, tasks: seq<Task>, quantum: int, now: int, job: Job, exec: int)
    requires DistinctIds(tasks) && Chart(slices, tasks, quantum, now)
    requires job.task in tasks && job.task.arrival <= now && 0 <= now && 0 < exec <= quantum
    ensures Chart(slices + [Slice(job.task.id, now, now + exec)], tasks, quantum, now + exec)
  {
    var s' := slices + [Slice(job.task.id, now, now + exec)];
    forall i, j | 0 <= i < j < |s'|
      ensures s'[i].end <= s'[j].start
    {
      if j == |slices| && i < |slices| - 1 {
        assert slices[i].end <= slices[|slices| - 1].start;
      }
    }
    forall i, k | 0 <= i < |s'| && 0 <= k < |tasks| && s'[i].id == tasks[k].id
      ensures tasks[k].arrival <= s'[i].start
    {
      if i == |slices| {
        var u :| 0 <= u < |tasks| && tasks[u] == job.task;
        assert u == k;
      }
    }
  }

  /** The result entry once the process first gets the processor at `now`
      (its start time is set only if it has none yet). */
  function Started(e: Metrics, now: int): (e': Metrics)
    ensures e'.task == e.task && e'.finish == e.finish
    ensures e.start < 0 ==> e'.start == now
    ensures e.start >= 0 ==> e' == e
  {
    if e.start < 0 then e.(start := now) else e
  }

  /** The result entry of a process that completes at `finish`. */
  function Completed(e: Metrics, finish: int): (e': Metrics)
    ensures e'.task == e.task && e'.start == e.start && e'.finish == finish
    ensures Derived(e')
  {
    e.(finish := finish, turnaround := finish - e.task.arrival,
       waiting := finish - e.task.arrival - e.task.burst)
  }

  /** Everything that holds at the top of each round. */
  ghost predicate Round(tasks: seq<Task>, quantum: int, rq: seq<Job>, pq: seq<Job>, now: int, completed: int,
                        slices: seq<Slice>, res: seq<Metrics>)
  {
    && Queues(tasks, rq, pq, now, completed)
    && |res| == |tasks|
    && (forall x :: 0 <= x < |tasks| ==> Account(tasks, x, rq + pq, slices, res))
    && Chart(slices, tasks, quantum, now)
  }

  /** An admission keeps the round state and the backlog; when it leaves the
      ready queue empty, nothing pending had arrived. */
  lemma AdmitRound(tasks: seq<Task>, quantum: int, rq: seq<Job>, pq: seq<Job>, now: int, completed: int,
                   slices: seq<Slice>, res: seq<Metrics>, positive: bool)
    requires Round(tasks, quantum, rq, pq, now, completed, slices, res)
    ensures Round(tasks, quantum, rq + Admitted(pq, now, positive), Rejected(pq, now, positive), now, completed,
                  slices, res)
    ensures Backlog(rq + Admitted(pq, now, positive) + Rejected(pq, now, positive)) == Backlog(rq + pq)
    ensures forall j :: j in Rejected(pq, now, positive) ==> now < j.task.arrival
    ensures rq + Admitted(pq, now, positive) == [] ==> forall j :: j in pq ==> now < j.task.arrival
  {
    AdmitKeeps(tasks, rq, pq, now, completed, positive);
    var rq', pq' := rq + Admitted(pq, now, positive), Rejected(pq, now, positive);
    SameAccounts(tasks, rq + pq, rq' + pq', slices, res);
    if rq' == [] {
      AdmitNone(rq, pq, now, positive);
    }
  }

  /** Accounts depend on the queued jobs only through their measures. */
  lemma SameAccounts(tasks: seq<Task>, q: seq<Job>, q': seq<Job>, slices: seq<Slice>, res: seq<Metrics>)
    requires |res| == |tasks|
    requires forall id :: Occurs(q', id) == Occurs(q, id) && Left(q', id) == Left(q, id)
    requires forall x :: 0 <= x < |tasks| ==> Account(tasks, x, q, slices, res)
    ensures forall x :: 0 <= x < |tasks| ==> Account(tasks, x, q', slices, res)
  {
    forall x | 0 <= x < |tasks|
      ensures Account(tasks, x, q', slices, res)
    {
      assert Account(tasks, x, q, slices, res);
    }
  }

  /** An admission that readies nothing leaves every pending job pending. */
  lemma AdmitNone(rq: seq<Job>, pq: seq<Job>, now: int, positive: bool)
    requires rq + Admitted(pq, now, positive) == []
    requires forall j :: j in Rejected(pq, now, positive) ==> now < j.task.arrival
    ensures forall j :: j in pq ==> now < j.task.arrival
  {
    AdmitSplit(pq, now, positive);
    assert Admitted(pq, now, positive) == [];
    forall j | j in pq
      ensures now < j.task.arrival
    {
      assert j in multiset(pq);
      assert j in multiset(Rejected(pq, now, positive));
    }
  }

  /** With nothing ready, the clock jumps to the first pending arrival. */
  lemma JumpRound(tasks: seq<Task>, quantum: int, pq: seq<Job>, now: int, completed: int,
                  slices: seq<Slice>, res: seq<Metrics>)
    requires Round(tasks, quantum, [], pq, now, completed, slices, res)
    requires pq != [] && forall j :: j in pq ==> now < j.task.arrival
    ensures Round(tasks, quantum, [], pq, pq[0].task.arrival, completed, slices, res)
  {
    assert pq[0] in pq;
  }

  /** The facts about the head job that a round relies on. */
  lemma HeadJob(tasks: seq<Task>, quantum: int, rq: seq<Job>, pq: seq<Job>, now: int, completed: int,
                slices: seq<Slice>, res: seq<Metrics>)
    requires Round(tasks, quantum, rq, pq, now, completed, slices, res) && rq != []
    ensures rq[0].task in tasks && rq[0].remaining > 0 && rq[0].task.arrival <= now
    ensures Occurs(rq + pq, rq[0].task.id) == 1
    ensures rq + pq == [rq[0]] + (rq[1..] + pq)
  {
    assert rq[0] in rq + pq;
    OccursMember(rq + pq, rq[0]);
    assert rq + pq == [rq[0]] + (rq[1..] + pq);
  }

  /** A round in which the head job, input process `x`, runs to completion. */
  lemma FinishRound(tasks: seq<Task>, quantum: int, rq: seq<Job>, pq: seq<Job>, now: int, completed: int,
                    slices: seq<Slice>, res: seq<Metrics>, x: nat, exec: int, e: Metrics, b: Slice,
                    rq': seq<Job>, now': int, completed': int, slices': seq<Slice>, res': seq<Metrics>)
    requires DistinctIds(tasks) && Round(tasks, quantum, rq, pq, now, completed, slices, res)
    requires rq != [] && x < |tasks| && tasks[x] == rq[0].task && exec == rq[0].remaining <= quantum
    requires now' == now + exec && completed' == completed + 1
    requires b == Slice(rq[0].task.id, now, now') && rq' == rq[1..] && slices' == slices + [b]
    requires e == Started(res[x], now) && res' == res[x := Completed(e, now')]
    ensures Round(tasks, quantum, rq', pq, now', completed', slices', res')
    ensures 0 <= Backlog(rq' + pq) < Backlog(rq + pq)
  {
    var job := rq[0];
    HeadJob(tasks, quantum, rq, pq, now, completed, slices, res);
    FinishKeeps(tasks, rq, pq, now, completed, now');
    RunChart(slices, tasks, quantum, now, job, exec);
    RunAccounts(tasks, rq + pq, rq' + pq, slices, slices', res, res', job, x, exec, now, true);
  }

  /** The queues and measures once the head job has left for good. */
  lemma FinishKeeps(tasks: seq<Task>, rq: seq<Job>, pq: seq<Job>, now: int, completed: int, now': int)
    requires Queues(tasks, rq, pq, now, completed) && rq != [] && now <= now'
    ensures Queues(tasks, rq[1..], pq, now', completed + 1)
    ensures forall id :: Occurs(rq[1..] + pq, id) == Occurs(rq + pq, id) - (if id == rq[0].task.id then 1 else 0)
    ensures forall id :: Left(rq[1..] + pq, id)
                      == Left(rq + pq, id) - (if id == rq[0].task.id then rq[0].remaining else 0)
    ensures 0 <= Backlog(rq[1..] + pq) < Backlog(rq + pq)
  {
    assert rq + pq == [rq[0]] + (rq[1..] + pq);
    MeasuresHead(rq[0], rq[1..] + pq);
    assert forall j :: j in rq[1..] + pq ==> j in rq + pq;
    assert rq[0] in rq + pq;
    BacklogNonNegative(rq[1..] + pq);
  }

  /** The measures after the front job `j` of `q` is replaced by `j'` at the
      back, up to reordering. */
  lemma MeasuresShift(q: seq<Job>, q': seq<Job>, rest: seq<Job>, j: Job, j': Job)
    requires q == [j] + rest && multiset(q') == multiset(rest + [j']) && j'.task == j.task
    ensures forall id :: Occurs(q', id) == Occurs(q, id)
    ensures forall id :: Left(q', id) == Left(q, id) - (if id == j.task.id then j.remaining - j'.remaining else 0)
    ensures Backlog(q') == Backlog(q) - (j.remaining - j'.remaining)
  {
    MeasuresPermutation(q', rest + [j']);
    SwapEnds(j, j', rest);
  }

  /** Swapping the job at the front for one of the same process at the back. */
  lemma SwapEnds(j: Job, j': Job, rest: seq<Job>)
    requires j'.task == j.task
    ensures forall id :: Occurs(rest + [j'], id) == Occurs([j] + rest, id)
    ensures forall id :: Left(rest + [j'], id)
                      == Left([j] + rest, id) - (if id == j.task.id then j.remaining - j'.remaining else 0)
    ensures Backlog(rest + [j']) == Backlog([j] + rest) - (j.remaining - j'.remaining)
  {
    MeasuresAppend(rest, [j']);
    MeasuresAppend([j], rest);
    assert [j][..0] == [] && [j'][..0] == [];
  }

  lemma RequeueMultiset(rq: seq<Job>, pq: seq<Job>, now': int, job': Job, rq': seq<Job>, pq': seq<Job>)
    requires rq != []
    requires rq' == rq[1..] + Admitted(pq, now', false) + [job'] && pq' == Rejected(pq, now', false)
    ensures multiset(rq' + pq') == multiset(rq[1..] + pq + [job'])
    ensures multiset(rq' + pq') == multiset(rq[1..] + pq) + multiset{job'}
  {
    AdmitSplit(pq, now', false);
  }

  /** The queues after such a round: still one job per unfinished process,
      each needing time, the ready ones arrived. */
  lemma RequeueQueues(tasks: seq<Task>, rq: seq<Job>, pq: seq<Job>, now: int, completed: int,
                      now': int, job': Job, rq': seq<Job>, pq': seq<Job>)
    requires Queues(tasks, rq, pq, now, completed) && rq != [] && now <= now'
    requires job'.task == rq[0].task && job'.remaining > 0
    requires rq' == rq[1..] + Admitted(pq, now', false) + [job'] && pq' == Rejected(pq, now', false)
    requires forall id :: Occurs(rq' + pq', id) == Occurs(rq + pq, id)
    requires multiset(rq' + pq') == multiset(rq[1..] + pq) + multiset{job'}
    ensures Queues(tasks, rq', pq', now', completed)
  {
    AdmitChoice(pq, now', false);
    assert rq[0] in rq + pq;
    forall j | j in rq' + pq'
      ensures j.task in tasks && j.remaining > 0
    {
      if j != job' {
        assert j in multiset(rq' + pq');
        assert j in multiset(rq[1..] + pq);
        assert j in rq + pq;
      }
    }
    forall j | j in rq'
      ensures j.task.arrival <= now'
    {
      if j != job' && j !in Admitted(pq, now', false) {
        assert j in rq;
      }
    }
    assert |rq' + pq'| == |rq[1..] + pq| + 1 by {
      assert |multiset(rq' + pq')| == |multiset(rq[1..] + pq)| + 1;
    }
  }

  /** The queues and measures after the head job rejoins the ready queue
      with `job'`, behind the newly admitted jobs. */
  lemma RequeueKeeps(tasks: seq<Task>, rq: seq<Job>, pq: seq<Job>, now: int, completed: int,
                     now': int, job': Job, rq': seq<Job>, pq': seq<Job>)
    requires Queues(tasks, rq, pq, now, completed) && rq != [] && now <= now'
    requires job'.task == rq[0].task && job'.remaining > 0
    requires rq' == rq[1..] + Admitted(pq, now', false) + [job'] && pq' == Rejected(pq, now', false)
    ensures Queues(tasks, rq', pq', now', completed)
    ensures forall id :: Occurs(rq' + pq', id) == Occurs(rq + pq, id)
    ensures forall id :: Left(rq' + pq', id)
                      == Left(rq + pq, id) - (if id == job'.task.id then rq[0].remaining - job'.remaining else 0)
    ensures Backlog(rq' + pq') == Backlog(rq + pq) - (rq[0].remaining - job'.remaining)
  {
    RequeueMultiset(rq, pq, now', job', rq', pq');
    assert rq + pq == [rq[0]] + (rq[1..] + pq);
    MeasuresShift(rq + pq, rq' + pq', rq[1..] + pq, rq[0], job');
    RequeueQueues(tasks, rq, pq, now, completed, now', job', rq', pq');
  }

  /** A round in which the head job, input process `x`, uses its whole
      quantum, the processes that arrived meanwhile are admitted, and it
      rejoins the ready queue behind them. */
  lemma RequeueRound(tasks: seq<Task>, quantum: int, rq: seq<Job>, pq: seq<Job>, now: int, completed: int,
                     slices: seq<Slice>, res: seq<Metrics>, x: nat, e: Metrics, b: Slice, job': Job, now': int,
                     rq': seq<Job>, pq': seq<Job>, slices': seq<Slice>, res': seq<Metrics>)
    requires DistinctIds(tasks) && Round(tasks, quantum, rq, pq, now, completed, slices, res)
    requires rq != [] && x < |tasks| && tasks[x] == rq[0].task && 0 < quantum < rq[0].remaining
    requires now' == now + quantum && job' == rq[0].(remaining := rq[0].remaining - quantum)
    requires rq' == rq[1..] + Admitted(pq, now', false) + [job'] && pq' == Rejected(pq, now', false)
    requires b == Slice(rq[0].task.id, now, now') && slices' == slices + [b]
    requires e == Started(res[x], now) && res' == res[x := e]
    ensures Round(tasks, quantum, rq', pq', now', completed, slices', res')
    ensures 0 <= Backlog(rq' + pq') < Backlog(rq + pq)
  {
    var job := rq[0];
    HeadJob(tasks, quantum, rq, pq, now, completed, slices, res);
    RunChart(slices, tasks, quantum, now, job, quantum);
    RequeueKeeps(tasks, rq, pq, now, completed, now', job', rq', pq');
    RunAccounts(tasks, rq + pq, rq' + pq', slices, slices', res, res', job, x, quantum, now, false);
    BacklogNonNegative(rq' + pq');
  }

  /** One turn of the head of the ready queue: it runs for one quantum or
      until done, starting its result entry on its first turn; a finished
      process gets its completion, turnaround and waiting time, otherwise the
      processes that arrived meanwhile are admitted and it rejoins the back. */
  method RunQuantum(tasks: seq<Task>, quantum: int, rq: seq<Job>, pq: seq<Job>, now: int, completed: int,
                    slices: seq<Slice>, res: seq<Metrics>)
    returns (rq': seq<Job>, pq': seq<Job>, now': int, completed': int, slices': seq<Slice>, res': seq<Metrics>)
    requires DistinctIds(tasks) && quantum >= 1 && Round(tasks, quantum, rq, pq, now, completed, slices, res) && rq != []
    ensures Round(tasks, quantum, rq', pq', now', completed', slices', res')
    ensures 0 <= Backlog(rq' + pq') < Backlog(rq + pq)
    ensures var job := rq[0];
      && now' == now + (if quantum < job.remaining then quantum else job.remaining)
      && slices' == slices + [Slice(job.task.id, now, now')]
      && (job.remaining <= quantum ==> rq' == rq[1..] && pq' == pq && completed' == completed + 1)
      && (quantum < job.remaining ==>
            && rq' == rq[1..] + Admitted(pq, now', false) + [job.(remaining := job.remaining - quantum)]
            && pq' == Rejected(pq, now', false)
            && completed' == completed)
    ensures |res'| == |res| && forall k :: 0 <= k < |res| ==>
              res'[k] == if tasks[k].id != rq[0].task.id then res[k]
                         else if rq[0].remaining <= quantum then Completed(Started(res[k], now), now')
                         else Started(res[k], now)
  {
    var job := rq[0];
    HeadJob(tasks, quantum, rq, pq, now, completed, slices, res);
    var x := FindById(tasks, job.task.id);
    var entry := Started(res[x], now);
    var exec := if quantum < job.remaining then quantum else job.remaining;
    var bar := Slice(job.task.id, now, now + exec);
    slices' := slices + [bar];
    now' := now + exec;
    rq' := rq[1..];
    if job.remaining - exec <= 0 {
      completed' := completed + 1;
      pq' := pq;
      res' := res[x := Completed(entry, now')];
      FinishRound(tasks, quantum, rq, pq, now, completed, slices, res, x, exec, entry, bar,
                  rq', now', completed', slices', res');
    } else {
      completed' := completed;
      rq', pq' := Admit(rq', pq, now', false);
      var job' := job.(remaining := job.remaining - exec);
      rq' := rq' + [job'];
      res' := res[x := entry];
      RequeueRound(tasks, quantum, rq, pq, now, completed, slices, res, x, entry, bar, job', now',
                   rq', pq', slices', res');
    }
  }

  /** Round robin with time quantum `quantum`. The metrics keep the input
      order. */
  method RoundRobin(tasks: seq<Task>, quantum: int) returns (r: Schedule)
    requires DistinctIds(tasks)
    requires forall k :: 0 <= k < |tasks| ==> tasks[k].burst > 0 && tasks[k].arrival >= 0
    requires quantum >= 1
    ensures |r.metrics| == |tasks|
    ensures forall k :: 0 <= k < |tasks| ==> r.metrics[k].task == tasks[k]
    ensures forall k :: 0 <= k < |tasks| ==> Served(r.slices, tasks[k].id) == tasks[k].burst
    ensures forall k :: 0 <= k < |tasks| ==> Finished(r.metrics[k], r.slices)
    ensures forall i :: 0 <= i < |r.slices| ==> 0 < r.slices[i].end - r.slices[i].start <= quantum
    ensures TimeOrdered(r.slices)
    ensures forall i, k :: 0 <= i < |r.slices| && 0 <= k < |tasks| && r.slices[i].id == tasks[k].id ==>
              tasks[k].arrival <= r.slices[i].start
    ensures forall k :: 0 <= k < |tasks| ==> r.metrics[k].waiting >= 0
    ensures Totals(r)
    ensures r.slices == RoundRobinTrace(tasks, quantum)
  {
    var jobs := Jobs(tasks);
    var pq := SortBy(jobs, JobArrival);
    var res := seq(|tasks|, k requires 0 <= k < |tasks| => Metrics(tasks[k], -1, -1, 0, 0));
    var now := 0;
    if |pq| > 0 && pq[0].task.arrival > 0 {
      now := pq[0].task.arrival;
    }
    InitialRound(tasks, quantum, jobs, pq, res, now);
    var slices;
    slices, res := Serve(tasks, quantum, pq, now, res);
    r := Schedule(slices, res, TotalWaiting(res), TotalTurnaround(res));
  }

  /** The main loop, with what its final state says about each process. */
  method Serve(tasks: seq<Task>, quantum: int, pending: seq<Job>, start: int, res: seq<Metrics>)
    returns (slices: seq<Slice>, res': seq<Metrics>)
    requires DistinctIds(tasks) && quantum >= 1 && Round(tasks, quantum, [], pending, start, 0, [], res)
    ensures |res'| == |tasks|
    ensures forall k :: 0 <= k < |tasks| ==> res'[k].task == tasks[k]
    ensures forall k :: 0 <= k < |tasks| ==> Served(slices, tasks[k].id) == tasks[k].burst
    ensures forall k :: 0 <= k < |tasks| ==> Finished(res'[k], slices)
    ensures forall i :: 0 <= i < |slices| ==> 0 < slices[i].end - slices[i].start <= quantum
    ensures TimeOrdered(slices)
    ensures forall i, k :: 0 <= i < |slices| && 0 <= k < |tasks| && slices[i].id == tasks[k].id ==>
              tasks[k].arrival <= slices[i].start
    ensures forall k :: 0 <= k < |tasks| ==> res'[k].waiting >= 0
    ensures slices == Trace(quantum, [], pending, start)
  {
    ghost var now, completed;
    slices, res', now, completed := Rounds(tasks, quantum, pending, start, res);
    FinalRound(tasks, quantum, [], [], now, completed, slices, res');
  }

  /** The main loop of round robin, from an empty ready queue and chart with
      the jobs `pending` sorted by arrival, until every process completes. */
  method Rounds(tasks: seq<Task>, quantum: int, pending: seq<Job>, start: int, res: seq<Metrics>)
    returns (slices: seq<Slice>, res': seq<Metrics>, ghost clock: int, ghost done: int)
    requires DistinctIds(tasks) && quantum >= 1 && Round(tasks, quantum, [], pending, start, 0, [], res)
    ensures Round(tasks, quantum, [], [], clock, done, slices, res') && done >= |tasks|
    ensures slices == Trace(quantum, [], pending, start)
  {
    var rq: seq<Job>, pq := [], pending;
    var now, completed := start, 0;
    slices, res' := [], res;
    while completed < |tasks|
      invariant Round(tasks, quantum, rq, pq, now, completed, slices, res')
      invariant Drawn(quantum, pending, start, slices, rq, pq, now)
      decreases Backlog(rq + pq), if Idle(rq, pq, now) then 1 else 0
    {
      rq, pq, now, completed, slices, res' := Pass(tasks, quantum, pending, start, rq, pq, now, completed, slices, res');
      BacklogNonNegative(rq + pq);
    }
    assert rq == [] && pq == [];
    DrawnAll(quantum, pending, start, slices, now);
    clock, done := now, completed;
  }

  /** One pass of the main loop: admit the pending processes that have
      arrived; with none ready, jump the clock to the next arrival;
      otherwise give the head of the ready queue its turn. */
  method Pass(tasks: seq<Task>, quantum: int, ghost pending: seq<Job>, ghost start: int,
              rq: seq<Job>, pq: seq<Job>, now: int, completed: int, slices: seq<Slice>, res: seq<Metrics>)
    returns (rq': seq<Job>, pq': seq<Job>, now': int, completed': int, slices': seq<Slice>, res': seq<Metrics>)
    requires DistinctIds(tasks) && quantum >= 1 && completed < |tasks|
    requires Round(tasks, quantum, rq, pq, now, completed, slices, res)
    requires Drawn(quantum, pending, start, slices, rq, pq, now)
    ensures Round(tasks, quantum, rq', pq', now', completed', slices', res')
    ensures Drawn(quantum, pending, start, slices', rq', pq', now')
    ensures Backlog(rq' + pq') < Backlog(rq + pq)
         || (Backlog(rq' + pq') == Backlog(rq + pq) && Idle(rq, pq, now) && !Idle(rq', pq', now'))
  {
    AdmitRound(tasks, quantum, rq, pq, now, completed, slices, res, true);
    rq', pq' := Admit(rq, pq, now, true);
    now', completed', slices', res' := now, completed, slices, res;
    if |rq'| == 0 {
      // the source breaks out here when nothing is pending either, which
      // cannot happen while a process is incomplete
      assert |pq'| > 0;
      JumpRound(tasks, quantum, pq', now, completed, slices, res);
      DrawnJump(quantum, pending, start, slices, rq, pq, now);
      now' := pq'[0].task.arrival;
      return;
    }
    ghost var rq1, pq1 := rq', pq';
    rq', pq', now', completed', slices', res' := RunQuantum(tasks, quantum, rq', pq', now, completed, slices, res);
    TurnArgs(quantum, rq1, pq1, now, rq', pq', now');
    DrawnRun(quantum, pending, start, slices, rq, pq, now, slices', rq', pq', now');
  }

  /** Once every process has completed, each has its final result entry. */
  lemma FinalRound(tasks: seq<Task>, quantum: int, rq: seq<Job>, pq: seq<Job>, now: int, completed: int,
                   slices: seq<Slice>, res: seq<Metrics>)
    requires Round(tasks, quantum, rq, pq, now, completed, slices, res) && completed >= |tasks|
    ensures |res| == |tasks|
    ensures forall k :: 0 <= k < |tasks| ==> res[k].task == tasks[k]
    ensures forall k :: 0 <= k < |tasks| ==> Served(slices, tasks[k].id) == tasks[k].burst
    ensures forall k :: 0 <= k < |tasks| ==> Finished(res[k], slices)
    ensures forall i :: 0 <= i < |slices| ==> 0 < slices[i].end - slices[i].start <= quantum
    ensures TimeOrdered(slices)
    ensures forall i, k :: 0 <= i < |slices| && 0 <= k < |tasks| && slices[i].id == tasks[k].id ==>
              tasks[k].arrival <= slices[i].start
    ensures forall k :: 0 <= k < |tasks| ==> res[k].waiting >= 0
  {
    assert rq + pq == [];
    forall k | 0 <= k < |tasks|
      ensures res[k].task == tasks[k] && Served(slices, tasks[k].id) == tasks[k].burst && Finished(res[k], slices)
      ensures res[k].waiting >= 0
    {
      assert Account(tasks, k, rq + pq, slices, res);
      NoEarlyFinish(res[k], slices);
    }
  }

  lemma InitialRound(tasks: seq<Task>, quantum: int, jobs: seq<Job>, pq: seq<Job>, res: seq<Metrics>, now: int)
    requires DistinctIds(tasks)
    requires forall k :: 0 <= k < |tasks| ==> tasks[k].burst > 0 && tasks[k].arrival >= 0
    requires |jobs| == |tasks| && forall k :: 0 <= k < |tasks| ==> jobs[k] == Job(tasks[k], tasks[k].burst)
    requires multiset(pq) == multiset(jobs)
    requires |res| == |tasks| && forall k :: 0 <= k < |tasks| ==> res[k] == Metrics(tasks[k], -1, -1, 0, 0)
    requires 0 <= now
    ensures Round(tasks, quantum, [], pq, now, 0, [], res)
  {
    MeasuresPermutation(jobs, pq);
    assert [] + pq == pq;
    assert |pq| == |multiset(pq)| == |jobs|;
    InitialJobs(tasks, jobs);
    forall j | j in pq
      ensures j.task in tasks && j.remaining > 0
    {
      assert j in multiset(jobs);
    }
  }

  /** Before the first round every process has exactly one job, holding its
      whole burst. */
  lemma {:induction false} InitialJobs(tasks: seq<Task>, jobs: seq<Job>)
    requires DistinctIds(tasks)
    requires |jobs| == |tasks| && forall k :: 0 <= k < |tasks| ==> jobs[k] == Job(tasks[k], tasks[k].burst)
    ensures forall id :: Occurs(jobs, id) <= 1
    ensures forall x :: 0 <= x < |tasks| ==> Occurs(jobs, tasks[x].id) == 1 && Left(jobs, tasks[x].id) == tasks[x].burst
  {
    forall id
      ensures Occurs(jobs, id) <= 1
    {
      OccursDistinct(jobs, id);
    }
    forall x | 0 <= x < |tasks|
      ensures Occurs(jobs, tasks[x].id) == 1 && Left(jobs, tasks[x].id) == tasks[x].burst
    {
      MeasuresUnique(jobs, x);
    }
  }

  /** A bar of `id` ends the chart's last bar of `id`. */
  lemma {:induction false} EndedBar(s: seq<Slice>, id: string)
    requires Ended(s, id).Some?
    ensures exists i :: 0 <= i < |s| && s[i].id == id && s[i].end == Ended(s, id).value
  {
    if s[|s| - 1].id != id {
      EndedBar(s[..|s| - 1], id);
      var i :| 0 <= i < |s| - 1 && s[..|s| - 1][i].id == id && s[..|s| - 1][i].end == Ended(s, id).value;
      assert s[i] == s[..|s| - 1][i];
    }
  }

  /** On a chart whose bars follow each other in time, a process is served
      no more than the time between the start of its first bar and the end
      of its last, and nothing before its first bar. */
  lemma {:induction false} ServedWithin(s: seq<Slice>, id: string)
    requires TimeOrdered(s)
    ensures Began(s, id).None? ==> Served(s, id) == 0 && Ended(s, id).None?
    ensures Began(s, id).Some? ==> Ended(s, id).Some? && Served(s, id) <= Ended(s, id).value - Began(s, id).value
  {
    if s != [] {
      var front, b := s[..|s| - 1], s[|s| - 1];
      assert TimeOrdered(front) by {
        forall i, j | 0 <= i < j < |front|
          ensures front[i].end <= front[j].start
        {
          assert front[i] == s[i] && front[j] == s[j];
        }
      }
      ServedWithin(front, id);
      if b.id == id && Began(front, id).Some? {
        EndedBar(front, id);
        var i :| 0 <= i < |front| && front[i].id == id && front[i].end == Ended(front, id).value;
        assert s[i] == front[i];
      }
    }
  }

  /** No process finishes sooner than its arrival plus its burst: waiting
      is never negative. */
  lemma NoEarlyFinish(e: Metrics, s: seq<Slice>)
    requires TimeOrdered(s) && Finished(e, s) && Served(s, e.task.id) == e.task.burst
    ensures e.finish >= e.task.arrival + e.task.burst && e.waiting >= 0
  {
    ServedWithin(s, e.task.id);
  }
}
