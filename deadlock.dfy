/** Deadlock handling: the Banker's safety algorithm and deadlock detection.
    Both repeatedly sweep the processes in input order and let every process
    whose remaining need (maximum claim minus allocation) fits in the
    available vector finish, releasing its allocation; they stop once a whole
    sweep lets nobody finish. The Banker's algorithm reports the order of
    completion (the safe sequence); detection reports who never finished. */
module Deadlock {
  import opened Common

  /** A resource type (`ResourceType`); only `available` enters the algorithms. */
  datatype Resource = Resource(id: int, total: int, available: int)

  /** A process as entered: what it holds and its maximum claim per resource. */
  datatype Process = Process(id: string, allocation: seq<int>, max: seq<int>)

  /** A row of the working table and of every snapshot (`DeadlockProcess`):
      `request` is the remaining need, `safeSequence` the place in the safe
      sequence, set by the Banker's algorithm only. */
  datatype Row = Row(id: string, allocation: seq<int>, request: seq<int>, max: seq<int>,
                     finished: bool, safeSequence: Option<nat>)

  datatype BankersResult = BankersResult(isSafe: bool, safeSequence: seq<string>,
                                         availableResources: seq<int>, processStates: seq<seq<Row>>)

  datatype DetectionResult = DetectionResult(hasDeadlock: bool, deadlockedProcesses: seq<string>,
                                             processStates: seq<seq<Row>>)

  /** Every process has one allocation and one maximum entry per resource, as
      the input form builds them. */
  ghost predicate Shaped(procs: seq<Process>, m: nat) {
    forall i :: 0 <= i < |procs| ==> |procs[i].allocation| == m && |procs[i].max| == m
  }

  /** No process holds a negative amount (the form's fields have minimum 0). */
  ghost predicate NonNegative(procs: seq<Process>) {
    forall i, j :: 0 <= i < |procs| && 0 <= j < |procs[i].allocation| ==> procs[i].allocation[j] >= 0
  }

  /** Remaining need: maximum claim minus current allocation. */
  function Need(p: Process): (r: seq<int>)
    requires |p.allocation| == |p.max|
    ensures |r| == |p.max|
    ensures forall j :: 0 <= j < |r| ==> p.allocation[j] + r[j] == p.max[j]
  {
    seq(|p.max|, j requires 0 <= j < |p.max| => p.max[j] - p.allocation[j])
  }

  /** Every component of `need` is covered by `avail`. */
  predicate Fits(need: seq<int>, avail: seq<int>) {
    forall j :: 0 <= j < |avail| && j < |need| ==> need[j] <= avail[j]
  }

  function Available(resources: seq<Resource>): (r: seq<int>)
    ensures |r| == |resources|
    ensures forall j :: 0 <= j < |r| ==> r[j] == resources[j].available
  {
    seq(|resources|, j requires 0 <= j < |resources| => resources[j].available)
  }

  /** The working copy of a process before any sweep. */
  function Start(p: Process): Row
    requires |p.allocation| == |p.max|
  {
    Row(p.id, p.allocation, Need(p), p.max, false, None)
  }

  ghost predicate Distinct(order: seq<nat>) {
    forall a, b :: 0 <= a < b < |order| ==> order[a] != order[b]
  }

  ghost predicate InRange(order: seq<nat>, n: nat) {
    forall k :: 0 <= k < |order| ==> order[k] < n
  }

  ghost function Members(order: seq<nat>): (m: set<nat>)
    ensures forall x :: x in m <==> x in order
  {
    set x: nat | x in order
  }

  /** The ids of the processes at the indices `order`. */
  function Ids(procs: seq<Process>, order: seq<nat>): (r: seq<string>)
    requires InRange(order, |procs|)
    ensures |r| == |order|
    ensures forall k :: 0 <= k < |order| ==> r[k] == procs[order[k]].id
  {
    seq(|order|, k requires 0 <= k < |order| => procs[order[k]].id)
  }

  /** Resource `j` held by the processes in `done` among the first `t`. */
  ghost function Pool(procs: seq<Process>, done: set<nat>, j: nat, t: nat): int
    requires t <= |procs|
    requires forall i :: 0 <= i < |procs| ==> j < |procs[i].allocation|
  {
    if t == 0 then 0
    else Pool(procs, done, j, t - 1) + (if t - 1 in done then procs[t - 1].allocation[j] else 0)
  }

  /** The available vector once the processes in `done` have released what
      they hold. */
  ghost function Avail(avail0: seq<int>, procs: seq<Process>, done: set<nat>): (r: seq<int>)
    requires Shaped(procs, |avail0|)
    ensures |r| == |avail0|
  {
    seq(|avail0|, j requires 0 <= j < |avail0| => avail0[j] + Pool(procs, done, j, |procs|))
  }

  /** Letting the processes finish in `order` never meets one whose need
      exceeds what the earlier ones have released (a safe sequence when
      `order` holds every process). */
  ghost predicate SafeOrder(procs: seq<Process>, avail0: seq<int>, order: seq<nat>)
    requires Shaped(procs, |avail0|)
  {
    forall k :: 0 <= k < |order| ==>
      order[k] < |procs| && Fits(Need(procs[order[k]]), Avail(avail0, procs, Members(order[..k])))
  }

  /** No process outside `done` can finish with what `done` releases. */
  ghost predicate Stuck(procs: seq<Process>, avail0: seq<int>, done: set<nat>)
    requires Shaped(procs, |avail0|)
  {
    forall i :: 0 <= i < |procs| && i !in done ==> !Fits(Need(procs[i]), Avail(avail0, procs, done))
  }

  /** Some safe order lets every process finish: the state is safe. */
  ghost predicate SafeState(procs: seq<Process>, avail0: seq<int>)
    requires Shaped(procs, |avail0|)
  {
    exists order :: SafeOrder(procs, avail0, order) && forall i :: 0 <= i < |procs| ==> i in order
  }

  /** Some safe order lets process `i` finish. */
  ghost predicate Finishable(procs: seq<Process>, avail0: seq<int>, i: nat)
    requires Shaped(procs, |avail0|)
  {
    exists order :: SafeOrder(procs, avail0, order) && i in order
  }

  /** The processes that some safe order lets finish. */
  ghost function Reachable(procs: seq<Process>, avail0: seq<int>): set<nat>
    requires Shaped(procs, |avail0|)
  {
    set i: nat | i < |procs| && Finishable(procs, avail0, i)
  }

  /** The working table after the processes of `order` finished in that
      order; with `ranked`, each finished row records its place. */
  ghost function Board(procs: seq<Process>, order: seq<nat>, ranked: bool): (b: seq<Row>)
    requires forall i :: 0 <= i < |procs| ==> |procs[i].allocation| == |procs[i].max|
    requires InRange(order, |procs|)
    ensures |b| == |procs|
    decreases |order|
  {
    if order == [] then seq(|procs|, i requires 0 <= i < |procs| => Start(procs[i]))
    else
      var b := Board(procs, order[..|order| - 1], ranked);
      var i := order[|order| - 1];
      if ranked then b[i := b[i].(finished := true, safeSequence := Some(|order| - 1))]
      else b[i := b[i].(finished := true)]
  }

  /** Every row keeps its process's data and need; a row is finished exactly
      when its process is in `order`, and the Banker's rank of `order[k]` is
      `k` while unfinished rows have none. */
  lemma {:induction false} BoardRows(procs: seq<Process>, order: seq<nat>, ranked: bool)
    requires forall i :: 0 <= i < |procs| ==> |procs[i].allocation| == |procs[i].max|
    requires InRange(order, |procs|) && Distinct(order)
    ensures forall i :: 0 <= i < |procs| ==>
      var w := Board(procs, order, ranked)[i];
      w.id == procs[i].id && w.allocation == procs[i].allocation && w.max == procs[i].max
      && w.request == Need(procs[i]) && (w.finished <==> i in order)
    ensures forall i :: 0 <= i < |procs| && i !in order ==> Board(procs, order, ranked)[i].safeSequence == None
    ensures forall k :: 0 <= k < |order| ==>
      Board(procs, order, ranked)[order[k]].safeSequence == (if ranked then Some(k) else None)
    decreases |order|
  {
    if order != [] {
      var front := order[..|order| - 1];
      BoardRows(procs, front, ranked);
      assert order == front + [order[|order| - 1]];
      forall k | 0 <= k < |front|
        ensures order[k] != order[|order| - 1]
      {
      }
    }
  }

  /** Number of finished rows (`count` in the source). */
  function Finished(ws: seq<Row>): (c: nat)
    ensures c <= |ws|
    ensures c == |ws| <==> forall i :: 0 <= i < |ws| ==> ws[i].finished
    ensures c == 0 <==> forall i :: 0 <= i < |ws| ==> !ws[i].finished
  {
    if ws == [] then 0 else Finished(ws[..|ws| - 1]) + (if ws[|ws| - 1].finished then 1 else 0)
  }

  /** Finishing one more row adds one to the count. */
  lemma {:induction false} FinishOne(ws: seq<Row>, i: nat, w: Row)
    requires i < |ws| && !ws[i].finished && w.finished
    ensures Finished(ws[i := w]) == Finished(ws) + 1
    decreases |ws|
  {
    var last := |ws| - 1;
    assert ws[i := w][..last] == if i < last then ws[..last][i := w] else ws[..last];
    if i < last {
      FinishOne(ws[..last], i, w);
    }
  }

  /** Every unfinished row needs more than `avail` holds of some resource. */
  ghost predicate Blocked(ws: seq<Row>, avail: seq<int>) {
    forall i :: 0 <= i < |ws| && !ws[i].finished ==> !Fits(ws[i].request, avail)
  }

  /** The state the sweeps maintain: rows, available vector, safe sequence
      and snapshots are those of letting `order` finish in turn, and `order`
      is a safe order of distinct processes. */
  ghost predicate Progress(procs: seq<Process>, avail0: seq<int>, ranked: bool, order: seq<nat>,
                           ws: seq<Row>, avail: seq<int>, safe: seq<string>, states: seq<seq<Row>>)
  {
    && Shaped(procs, |avail0|)
    && InRange(order, |procs|) && Distinct(order)
    && ws == Board(procs, order, ranked)
    && avail == Avail(avail0, procs, Members(order))
    && SafeOrder(procs, avail0, order)
    && safe == Ids(procs, order)
    && |states| == |order|
    && forall k :: 0 <= k < |states| ==> states[k] == Board(procs, order[..k + 1], ranked)
  }

  /** `Pool` over `done` plus a process not in it adds that process's share. */
  lemma {:induction false} PoolAdd(procs: seq<Process>, done: set<nat>, i: nat, j: nat, t: nat)
    requires t <= |procs| && i !in done
    requires forall x :: 0 <= x < |procs| ==> j < |procs[x].allocation|
    ensures Pool(procs, done + {i}, j, t) == Pool(procs, done, j, t) + (if i < t then procs[i].allocation[j] else 0)
  {
    if t > 0 {
      PoolAdd(procs, done, i, j, t - 1);
    }
  }

  /** Releasing more processes never leaves less of a resource. */
  lemma {:induction false} PoolGrows(procs: seq<Process>, a: set<nat>, b: set<nat>, j: nat, t: nat)
    requires t <= |procs| && a <= b && NonNegative(procs)
    requires forall x :: 0 <= x < |procs| ==> j < |procs[x].allocation|
    ensures Pool(procs, a, j, t) <= Pool(procs, b, j, t)
  {
    if t > 0 {
      PoolGrows(procs, a, b, j, t - 1);
    }
  }

  lemma PoolNone(procs: seq<Process>, j: nat, t: nat)
    requires t <= |procs|
    requires forall x :: 0 <= x < |procs| ==> j < |procs[x].allocation|
    ensures Pool(procs, {}, j, t) == 0
  {
  }

  /** Releasing process `i` adds its allocation to the available vector. */
  lemma AvailAdd(avail0: seq<int>, procs: seq<Process>, done: set<nat>, i: nat)
    requires Shaped(procs, |avail0|) && i < |procs| && i !in done
    ensures forall j :: 0 <= j < |avail0| ==>
      Avail(avail0, procs, done + {i})[j] == Avail(avail0, procs, done)[j] + procs[i].allocation[j]
  {
    forall j | 0 <= j < |avail0|
      ensures Avail(avail0, procs, done + {i})[j] == Avail(avail0, procs, done)[j] + procs[i].allocation[j]
    {
      PoolAdd(procs, done, i, j, |procs|);
    }
  }

  /** The available vector a release produces is the one of the larger set. */
  lemma ReleaseAvail(avail0: seq<int>, procs: seq<Process>, done: set<nat>, i: nat,
                     before: seq<int>, after: seq<int>)
    requires Shaped(procs, |avail0|) && i < |procs| && i !in done
    requires before == Avail(avail0, procs, done)
    requires |after| == |before|
    requires forall j :: 0 <= j < |before| ==> after[j] == before[j] + procs[i].allocation[j]
    ensures after == Avail(avail0, procs, done + {i})
  {
    AvailAdd(avail0, procs, done, i);
  }

  /** The board after one more process finishes. */
  lemma AdmitBoard(procs: seq<Process>, order: seq<nat>, ranked: bool, i: nat)
    requires forall x :: 0 <= x < |procs| ==> |procs[x].allocation| == |procs[x].max|
    requires InRange(order, |procs|) && i < |procs|
    ensures var b := Board(procs, order, ranked);
      Board(procs, order + [i], ranked)
      == if ranked then b[i := b[i].(finished := true, safeSequence := Some(|order|))]
         else b[i := b[i].(finished := true)]
  {
    assert (order + [i])[..|order|] == order;
  }

  /** Appending a process that fits what `order` releases keeps a safe order. */
  lemma AdmitSafe(procs: seq<Process>, avail0: seq<int>, order: seq<nat>, i: nat)
    requires Shaped(procs, |avail0|) && i < |procs|
    requires SafeOrder(procs, avail0, order)
    requires Fits(Need(procs[i]), Avail(avail0, procs, Members(order)))
    ensures SafeOrder(procs, avail0, order + [i])
  {
    var o := order + [i];
    forall k | 0 <= k < |o|
      ensures o[k] < |procs| && Fits(Need(procs[o[k]]), Avail(avail0, procs, Members(o[..k])))
    {
      if k < |order| {
        assert o[..k] == order[..k];
      } else {
        assert o[..k] == order;
      }
    }
  }

  /** The earlier snapshots are those of the earlier prefixes. */
  lemma AdmitStates(procs: seq<Process>, order: seq<nat>, ranked: bool, i: nat, states: seq<seq<Row>>)
    requires forall x :: 0 <= x < |procs| ==> |procs[x].allocation| == |procs[x].max|
    requires InRange(order, |procs|) && i < |procs|
    requires |states| == |order|
    requires forall k :: 0 <= k < |states| ==> states[k] == Board(procs, order[..k + 1], ranked)
    ensures var s := states + [Board(procs, order + [i], ranked)];
      forall k :: 0 <= k < |s| ==> s[k] == Board(procs, (order + [i])[..k + 1], ranked)
  {
    var o := order + [i];
    var s := states + [Board(procs, o, ranked)];
    forall k | 0 <= k < |s|
      ensures s[k] == Board(procs, o[..k + 1], ranked)
    {
      if k < |states| {
        assert o[..k + 1] == order[..k + 1];
      } else {
        assert o[..k + 1] == o;
      }
    }
  }

  lemma AdmitOrder(order: seq<nat>, n: nat, i: nat)
    requires InRange(order, n) && Distinct(order) && i < n && i !in order
    ensures InRange(order + [i], n) && Distinct(order + [i])
    ensures Members(order + [i]) == Members(order) + {i}
  {
  }

  /** `need` fits in `avail`: the check that stops at the first resource
      that falls short. */
  method CanAllocate(need: seq<int>, avail: seq<int>) returns (ok: bool)
    requires |need| == |avail|
    ensures ok <==> Fits(need, avail)
  {
    ok := true;
    var j := 0;
    while j < |avail|
      invariant 0 <= j <= |avail|
      invariant forall k :: 0 <= k < j ==> need[k] <= avail[k]
    {
      if need[j] > avail[j] {
        ok := false;
        break;
      }
      j := j + 1;
    }
  }

  /** A finishing process returns its allocation. */
  method Release(avail: seq<int>, allocation: seq<int>) returns (r: seq<int>)
    requires |allocation| == |avail|
    ensures |r| == |avail|
    ensures forall j :: 0 <= j < |avail| ==> r[j] == avail[j] + allocation[j]
  {
    r := avail;
    var j := 0;
    while j < |avail|
      invariant 0 <= j <= |avail| && |r| == |avail|
      invariant forall k :: 0 <= k < j ==> r[k] == avail[k] + allocation[k]
      invariant forall k :: j <= k < |avail| ==> r[k] == avail[k]
    {
      r := r[j := r[j] + allocation[j]];
      j := j + 1;
    }
  }

  /** Process `i` finishes: it joins the safe sequence, is marked finished
      (and ranked), releases its allocation, and a snapshot is taken. */
  method Admit(procs: seq<Process>, ghost avail0: seq<int>, ranked: bool, ghost order: seq<nat>,
               ws: seq<Row>, avail: seq<int>, safe: seq<string>, states: seq<seq<Row>>,
               count: nat, i: nat)
    returns (ws': seq<Row>, avail': seq<int>, safe': seq<string>, states': seq<seq<Row>>,
             count': nat, ghost order': seq<nat>)
    requires Progress(procs, avail0, ranked, order, ws, avail, safe, states)
    requires count == |order| == Finished(ws)
    requires i < |ws| && !ws[i].finished && Fits(ws[i].request, avail)
    ensures Progress(procs, avail0, ranked, order', ws', avail', safe', states')
    ensures count' == |order'| == Finished(ws') && order' == order + [i]
    ensures count' == count + 1 && safe' == safe + [ws[i].id] && |ws'| == |ws| && ws'[i].finished
  {
    order' := order + [i];
    safe' := safe + [ws[i].id];
    var row;
    if ranked {
      row := ws[i].(finished := true, safeSequence := Some(count));
    } else {
      row := ws[i].(finished := true);
    }
    ws' := ws[i := row];
    assert |ws[i].allocation| == |avail| by {
      BoardRows(procs, order, ranked);
    }
    avail' := Release(avail, ws[i].allocation);
    states' := states + [ws'];
    count' := count + 1;
    AdmitStep(procs, avail0, ranked, order, ws, avail, safe, states, i, row, avail');
  }

  /** Admitting process `i` keeps the loop invariant. */
  lemma AdmitStep(procs: seq<Process>, avail0: seq<int>, ranked: bool, order: seq<nat>,
                  ws: seq<Row>, avail: seq<int>, safe: seq<string>, states: seq<seq<Row>>,
                  i: nat, row: Row, avail': seq<int>)
    requires Progress(procs, avail0, ranked, order, ws, avail, safe, states)
    requires i < |ws| && !ws[i].finished && Fits(ws[i].request, avail)
    requires row == if ranked then ws[i].(finished := true, safeSequence := Some(|order|))
                    else ws[i].(finished := true)
    requires |ws[i].allocation| == |avail|
    requires |avail'| == |avail| && forall j :: 0 <= j < |avail| ==> avail'[j] == avail[j] + ws[i].allocation[j]
    ensures Progress(procs, avail0, ranked, order + [i], ws[i := row], avail', safe + [ws[i].id],
                     states + [ws[i := row]])
    ensures Finished(ws[i := row]) == Finished(ws) + 1
  {
    AdmitTable(procs, avail0, ranked, order, ws, avail, safe, states, i, row);
    AdmitRelease(procs, avail0, ranked, order, ws, avail, safe, states, i, avail');
    FinishOne(ws, i, row);
  }

  /** The order, the table and the snapshots after admitting process `i`. */
  lemma AdmitTable(procs: seq<Process>, avail0: seq<int>, ranked: bool, order: seq<nat>,
                   ws: seq<Row>, avail: seq<int>, safe: seq<string>, states: seq<seq<Row>>,
                   i: nat, row: Row)
    requires Progress(procs, avail0, ranked, order, ws, avail, safe, states)
    requires i < |ws| && !ws[i].finished
    requires row == if ranked then ws[i].(finished := true, safeSequence := Some(|order|))
                    else ws[i].(finished := true)
    ensures i !in order && InRange(order + [i], |procs|) && Distinct(order + [i])
    ensures Members(order + [i]) == Members(order) + {i}
    ensures ws[i := row] == Board(procs, order + [i], ranked)
    ensures var s := states + [ws[i := row]];
      forall k :: 0 <= k < |s| ==> s[k] == Board(procs, (order + [i])[..k + 1], ranked)
  {
    assert i !in order by {
      BoardRows(procs, order, ranked);
    }
    AdmitOrder(order, |procs|, i);
    AdmitBoard(procs, order, ranked, i);
    AdmitStates(procs, order, ranked, i, states);
  }

  /** The released vector, the safe order and the safe sequence after
      admitting process `i`. */
  lemma AdmitRelease(procs: seq<Process>, avail0: seq<int>, ranked: bool, order: seq<nat>,
                     ws: seq<Row>, avail: seq<int>, safe: seq<string>, states: seq<seq<Row>>,
                     i: nat, avail': seq<int>)
    requires Progress(procs, avail0, ranked, order, ws, avail, safe, states)
    requires i < |ws| && !ws[i].finished && Fits(ws[i].request, avail)
    requires |ws[i].allocation| == |avail|
    requires |avail'| == |avail| && forall j :: 0 <= j < |avail| ==> avail'[j] == avail[j] + ws[i].allocation[j]
    ensures avail' == Avail(avail0, procs, Members(order) + {i})
    ensures SafeOrder(procs, avail0, order + [i])
    ensures safe + [ws[i].id] == Ids(procs, order + [i])
  {
    assert ws[i].id == procs[i].id && ws[i].allocation == procs[i].allocation
        && ws[i].request == Need(procs[i]) && i !in order by {
      BoardRows(procs, order, ranked);
    }
    ReleaseAvail(avail0, procs, Members(order), i, avail, avail');
    AdmitSafe(procs, avail0, order, i);
    IdsAppend(procs, order, [i]);
    IdsOne(procs, i);
  }

  /** The sweep reaches process `i`: if it has not finished and its need
      fits, it finishes; otherwise nothing changes. */
  method Visit(procs: seq<Process>, ghost avail0: seq<int>, ranked: bool, ghost order: seq<nat>,
               ws: seq<Row>, avail: seq<int>, safe: seq<string>, states: seq<seq<Row>>,
               count: nat, i: nat)
    returns (admitted: bool, ws': seq<Row>, avail': seq<int>, safe': seq<string>,
             states': seq<seq<Row>>, count': nat, ghost order': seq<nat>)
    requires Progress(procs, avail0, ranked, order, ws, avail, safe, states)
    requires count == |order| == Finished(ws) && i < |ws|
    ensures Progress(procs, avail0, ranked, order', ws', avail', safe', states')
    ensures count' == |order'| == Finished(ws')
    ensures admitted <==> !ws[i].finished && Fits(ws[i].request, avail)
    ensures admitted ==> count' == count + 1 && order' == order + [i]
    ensures !admitted ==> count' == count && order' == order && ws' == ws && avail' == avail
                          && safe' == safe && states' == states
  {
    admitted := false;
    ws', avail', safe', states', count', order' := ws, avail, safe, states, count, order;
    if !ws[i].finished {
      assert |ws[i].request| == |avail| by {
        BoardRows(procs, order, ranked);
      }
      var ok := CanAllocate(ws[i].request, avail);
      if ok {
        admitted := true;
        ws', avail', safe', states', count', order' :=
          Admit(procs, avail0, ranked, order, ws, avail, safe, states, count, i);
      }
    }
  }

  /** One sweep over the processes in input order, letting every one that
      fits finish. When nobody finishes, nothing changes and every
      unfinished process is blocked. */
  method Sweep(procs: seq<Process>, ghost avail0: seq<int>, ranked: bool, ghost order: seq<nat>,
               ws: seq<Row>, avail: seq<int>, safe: seq<string>, states: seq<seq<Row>>, count: nat)
    returns (found: bool, ws': seq<Row>, avail': seq<int>, safe': seq<string>, states': seq<seq<Row>>,
             count': nat, ghost order': seq<nat>)
    requires Progress(procs, avail0, ranked, order, ws, avail, safe, states)
    requires count == |order| == Finished(ws)
    ensures Progress(procs, avail0, ranked, order', ws', avail', safe', states')
    ensures count' == |order'| == Finished(ws')
    ensures found ==> count' > count
    ensures !found ==> count' == count && ws' == ws && avail' == avail && Blocked(ws, avail)
  {
    found := false;
    ws', avail', safe', states', count', order' := ws, avail, safe, states, count, order;
    var i := 0;
    while i < |ws'|
      invariant |ws'| == |procs| && i <= |procs|
      invariant Progress(procs, avail0, ranked, order', ws', avail', safe', states')
      invariant count' == |order'| == Finished(ws')
      invariant found ==> count' > count
      invariant !found ==> count' == count && ws' == ws && avail' == avail
      invariant !found ==> forall k :: 0 <= k < i && !ws[k].finished ==> !Fits(ws[k].request, avail)
    {
      var admitted;
      admitted, ws', avail', safe', states', count', order' :=
        Visit(procs, avail0, ranked, order', ws', avail', safe', states', count', i);
      if admitted {
        found := true;
      } else if !found {
        assert forall k :: 0 <= k < i + 1 && !ws[k].finished ==> !Fits(ws[k].request, avail);
      }
      i := i + 1;
    }
  }

  /** The sweeps of both algorithms: repeat until every process finished or
      a sweep lets nobody finish. */
  method Settle(procs: seq<Process>, avail0: seq<int>, ranked: bool)
    returns (ws: seq<Row>, avail: seq<int>, safe: seq<string>, states: seq<seq<Row>>,
             count: nat, ghost order: seq<nat>)
    requires Shaped(procs, |avail0|)
    ensures Progress(procs, avail0, ranked, order, ws, avail, safe, states)
    ensures count == |order| == Finished(ws)
    ensures count == |procs| || Blocked(ws, avail)
  {
    ws := seq(|procs|, i requires 0 <= i < |procs| => Start(procs[i]));
    avail, safe, states, count, order := avail0, [], [], 0, [];
    forall j | 0 <= j < |avail0|
      ensures Pool(procs, {}, j, |procs|) == 0
    {
      PoolNone(procs, j, |procs|);
    }
    assert Members(order) == {};
    while count < |procs|
      invariant Progress(procs, avail0, ranked, order, ws, avail, safe, states)
      invariant count == |order| == Finished(ws)
      decreases |procs| - count
    {
      var found;
      found, ws, avail, safe, states, count, order := Sweep(procs, avail0, ranked, order, ws, avail, safe, states, count);
      if !found {
        break;
      }
    }
  }

  /** What the sweeps end with: when not every process finished, every
      unfinished one is stuck. */
  lemma SettleOutcome(procs: seq<Process>, avail0: seq<int>, ranked: bool, order: seq<nat>,
                      ws: seq<Row>, avail: seq<int>, count: nat)
    requires Shaped(procs, |avail0|) && InRange(order, |procs|) && Distinct(order)
    requires ws == Board(procs, order, ranked) && avail == Avail(avail0, procs, Members(order))
    requires count == Finished(ws) && (count == |procs| || Blocked(ws, avail))
    ensures count == |procs| <==> forall i :: 0 <= i < |procs| ==> i in order
    ensures count != |procs| ==> Stuck(procs, avail0, Members(order))
  {
    BoardRows(procs, order, ranked);
  }

  /** Ascending indices below `t` outside `done`. */
  ghost function Pending(t: nat, done: set<nat>): (r: seq<nat>)
    ensures InRange(r, t)
  {
    if t == 0 then [] else Pending(t - 1, done) + (if t - 1 in done then [] else [t - 1])
  }

  /** `Pending` lists, in ascending order, exactly the indices below `t`
      outside `done`. */
  lemma {:induction false} PendingMembers(t: nat, done: set<nat>)
    ensures var r := Pending(t, done);
      && (forall k :: 0 <= k < |r| ==> r[k] !in done)
      && (forall x :: 0 <= x < t && x !in done ==> x in r)
      && (forall a, b :: 0 <= a < b < |r| ==> r[a] < r[b])
  {
    if t > 0 {
      PendingMembers(t - 1, done);
    }
  }

  /** Nothing is pending exactly when every index below `t` is in `done`. */
  lemma PendingEmpty(t: nat, done: set<nat>)
    ensures Pending(t, done) == [] <==> forall x :: 0 <= x < t ==> x in done
  {
    PendingMembers(t, done);
  }

  /** The ids of the unfinished rows, in table order. */
  function Unfinished(ws: seq<Row>): (r: seq<string>)
  {
    if ws == [] then []
    else Unfinished(ws[..|ws| - 1]) + (if ws[|ws| - 1].finished then [] else [ws[|ws| - 1].id])
  }

  /** On a table whose rows carry the processes' ids and are finished exactly
      for `done`, the unfinished ids are those of the pending indices. */
  lemma {:induction false} UnfinishedPending(procs: seq<Process>, ws: seq<Row>, done: set<nat>, t: nat)
    requires |ws| == |procs| && t <= |ws|
    requires forall i :: 0 <= i < |ws| ==> ws[i].id == procs[i].id && (ws[i].finished <==> i in done)
    ensures InRange(Pending(t, done), |procs|)
    ensures Unfinished(ws[..t]) == Ids(procs, Pending(t, done))
  {
    if t > 0 {
      UnfinishedPending(procs, ws, done, t - 1);
      UnfinishedSnoc(ws, t);
      var before := Pending(t - 1, done);
      if t - 1 in done {
        assert ws[t - 1].finished;
        assert Pending(t, done) == before;
      } else {
        assert !ws[t - 1].finished && ws[t - 1].id == procs[t - 1].id;
        IdsAppend(procs, before, [t - 1]);
        IdsOne(procs, t - 1);
        calc {
          Unfinished(ws[..t]);
          Unfinished(ws[..t - 1]) + [ws[t - 1].id];
          Ids(procs, before) + Ids(procs, [t - 1]);
          Ids(procs, before + [t - 1]);
          { assert Pending(t, done) == before + [t - 1]; }
          Ids(procs, Pending(t, done));
        }
      }
    }
  }

  lemma UnfinishedSnoc(ws: seq<Row>, t: nat)
    requires 0 < t <= |ws|
    ensures Unfinished(ws[..t]) == Unfinished(ws[..t - 1]) + (if ws[t - 1].finished then [] else [ws[t - 1].id])
  {
    assert ws[..t][..t - 1] == ws[..t - 1];
  }

  lemma IdsOne(procs: seq<Process>, i: nat)
    requires i < |procs|
    ensures InRange([i], |procs|) && Ids(procs, [i]) == [procs[i].id]
  {
  }

  lemma IdsAppend(procs: seq<Process>, a: seq<nat>, b: seq<nat>)
    requires InRange(a, |procs|) && InRange(b, |procs|)
    ensures InRange(a + b, |procs|) && Ids(procs, a + b) == Ids(procs, a) + Ids(procs, b)
  {
  }

  /** Every process of a safe order is one the sweeps finish: what any
      prefix of a safe order releases is at most what the finished processes
      release, so a process outside `done` that the safe order lets run would
      also fit the final available vector. */
  lemma {:induction false} SafeWithin(procs: seq<Process>, avail0: seq<int>, done: set<nat>, sigma: seq<nat>)
    requires Shaped(procs, |avail0|) && NonNegative(procs)
    requires Stuck(procs, avail0, done) && SafeOrder(procs, avail0, sigma)
    ensures forall k :: 0 <= k < |sigma| ==> sigma[k] in done
    decreases |sigma|
  {
    if sigma != [] {
      var m := |sigma| - 1;
      var front := sigma[..m];
      assert SafeOrder(procs, avail0, front) by {
        forall k | 0 <= k < |front|
          ensures front[k] < |procs| && Fits(Need(procs[front[k]]), Avail(avail0, procs, Members(front[..k])))
        {
          assert front[..k] == sigma[..k];
        }
      }
      SafeWithin(procs, avail0, done, front);
      var x := sigma[m];
      var before := Avail(avail0, procs, Members(front));
      var after := Avail(avail0, procs, done);
      forall j | 0 <= j < |avail0|
        ensures before[j] <= after[j]
      {
        PoolGrows(procs, Members(front), done, j, |procs|);
      }
      assert Fits(Need(procs[x]), before);
      assert Fits(Need(procs[x]), after);
    }
  }

  /** A process left unfinished belongs to no safe order at all; in
      particular, when the sweeps stop short no safe sequence exists. */
  lemma NoSafeSequence(procs: seq<Process>, avail0: seq<int>, done: set<nat>, i: nat)
    requires Shaped(procs, |avail0|) && NonNegative(procs)
    requires Stuck(procs, avail0, done) && i < |procs| && i !in done
    ensures forall sigma :: SafeOrder(procs, avail0, sigma) ==> i !in sigma
  {
    forall sigma | SafeOrder(procs, avail0, sigma)
      ensures i !in sigma
    {
      SafeWithin(procs, avail0, done, sigma);
    }
  }

  /** The finished set does not depend on the order the processes are tried
      in: two safe orders that both end stuck finish the same processes. */
  lemma FinishedSetUnique(procs: seq<Process>, avail0: seq<int>, o1: seq<nat>, o2: seq<nat>)
    requires Shaped(procs, |avail0|) && NonNegative(procs)
    requires SafeOrder(procs, avail0, o1) && Stuck(procs, avail0, Members(o1))
    requires SafeOrder(procs, avail0, o2) && Stuck(procs, avail0, Members(o2))
    ensures Members(o1) == Members(o2)
  {
    SafeWithin(procs, avail0, Members(o2), o1);
    SafeWithin(procs, avail0, Members(o1), o2);
  }

  /** Once the sweeps end, with every process finished or the rest stuck,
      the verdict is the right one: a complete order is a safe sequence, and
      (allocations being non-negative) the finished processes are exactly
      those some safe order can finish, so a safe state is never missed. */
  lemma SettledVerdict(procs: seq<Process>, avail0: seq<int>, order: seq<nat>)
    requires Shaped(procs, |avail0|) && InRange(order, |procs|) && SafeOrder(procs, avail0, order)
    requires (forall i :: 0 <= i < |procs| ==> i in order) || Stuck(procs, avail0, Members(order))
    ensures (forall i :: 0 <= i < |procs| ==> i in order) ==> SafeState(procs, avail0)
    ensures NonNegative(procs) ==> Reachable(procs, avail0) == Members(order)
    ensures NonNegative(procs) && SafeState(procs, avail0) ==> forall i :: 0 <= i < |procs| ==> i in order
  {
    assert Stuck(procs, avail0, Members(order));
    if NonNegative(procs) {
      forall i | i in Reachable(procs, avail0)
        ensures i in Members(order)
      {
        var o :| SafeOrder(procs, avail0, o) && i in o;
        SafeWithin(procs, avail0, Members(order), o);
      }
      forall i | i in Members(order)
        ensures i in Reachable(procs, avail0)
      {
        assert SafeOrder(procs, avail0, order) && i in order;
      }
      if SafeState(procs, avail0) {
        var o :| SafeOrder(procs, avail0, o) && forall i :: 0 <= i < |procs| ==> i in o;
        SafeWithin(procs, avail0, Members(order), o);
      }
    }
  }

  /** The Banker's safety algorithm (`bankersAlgorithm`). `order` names the
      processes behind `safeSequence`. */
  method Bankers(procs: seq<Process>, resources: seq<Resource>) returns (r: BankersResult, ghost order: seq<nat>)
    requires Shaped(procs, |resources|)
    ensures InRange(order, |procs|) && Distinct(order)
    ensures r.safeSequence == Ids(procs, order)
    ensures SafeOrder(procs, Available(resources), order)
    ensures r.availableResources == Avail(Available(resources), procs, Members(order))
    ensures r.isSafe <==> forall i :: 0 <= i < |procs| ==> i in order
    ensures !r.isSafe ==> Stuck(procs, Available(resources), Members(order))
    ensures |r.processStates| == |order|
    ensures forall k :: 0 <= k < |order| ==> r.processStates[k] == Board(procs, order[..k + 1], true)
    ensures r.isSafe ==> SafeState(procs, Available(resources))
    ensures NonNegative(procs) && SafeState(procs, Available(resources)) ==> r.isSafe
  {
    var ws, avail, safe, states, count;
    ws, avail, safe, states, count, order := Settle(procs, Available(resources), true);
    SettleOutcome(procs, Available(resources), true, order, ws, avail, count);
    SettledVerdict(procs, Available(resources), order);
    r := BankersResult(count == |procs|, safe, avail, states);
  }

  /** The verdict of deadlock detection in terms of safe orders alone. */
  lemma DetectionVerdict(procs: seq<Process>, avail0: seq<int>, order: seq<nat>,
                         deadlock: bool, deadlocked: seq<string>)
    requires Shaped(procs, |avail0|) && InRange(order, |procs|) && SafeOrder(procs, avail0, order)
    requires deadlock <==> exists i :: 0 <= i < |procs| && i !in order
    requires deadlock ==> Stuck(procs, avail0, Members(order))
    requires deadlocked == Ids(procs, Pending(|procs|, Members(order)))
    ensures !deadlock ==> SafeState(procs, avail0)
    ensures NonNegative(procs) && SafeState(procs, avail0) ==> !deadlock
    ensures NonNegative(procs) ==> deadlocked == Ids(procs, Pending(|procs|, Reachable(procs, avail0)))
  {
    SettledVerdict(procs, avail0, order);
  }

  /** Deadlock detection (`deadlockDetection`). `order` names the processes
      in the order they finished. */
  method Detection(procs: seq<Process>, resources: seq<Resource>) returns (r: DetectionResult, ghost order: seq<nat>)
    requires Shaped(procs, |resources|)
    ensures InRange(order, |procs|) && Distinct(order)
    ensures SafeOrder(procs, Available(resources), order)
    ensures r.hasDeadlock <==> exists i :: 0 <= i < |procs| && i !in order
    ensures r.hasDeadlock ==> Stuck(procs, Available(resources), Members(order))
    ensures InRange(Pending(|procs|, Members(order)), |procs|)
    ensures r.deadlockedProcesses == Ids(procs, Pending(|procs|, Members(order)))
    ensures r.hasDeadlock <==> r.deadlockedProcesses != []
    ensures |r.processStates| == |order|
    ensures forall k :: 0 <= k < |order| ==> r.processStates[k] == Board(procs, order[..k + 1], false)
    ensures !r.hasDeadlock ==> SafeState(procs, Available(resources))
    ensures NonNegative(procs) && SafeState(procs, Available(resources)) ==> !r.hasDeadlock
    ensures NonNegative(procs) ==>
      r.deadlockedProcesses == Ids(procs, Pending(|procs|, Reachable(procs, Available(resources))))
  {
    var ws, avail, safe, states, count;
    ws, avail, safe, states, count, order := Settle(procs, Available(resources), false);
    SettleOutcome(procs, Available(resources), false, order, ws, avail, count);
    assert Unfinished(ws) == Ids(procs, Pending(|procs|, Members(order))) by {
      BoardRows(procs, order, false);
      UnfinishedPending(procs, ws, Members(order), |ws|);
      assert ws[..|ws|] == ws;
    }
    PendingEmpty(|procs|, Members(order));
    assert |Unfinished(ws)| == |Pending(|procs|, Members(order))|;
    r := DetectionResult(count < |procs|, Unfinished(ws), states);
    DetectionVerdict(procs, Available(resources), order, r.hasDeadlock, r.deadlockedProcesses);
  }

  /** The example table the deadlock screen starts with. */
  function DefaultProcesses(): seq<Process> {
    [Process("P1", [0, 1, 0], [7, 5, 3]),
     Process("P2", [2, 0, 0], [3, 2, 2]),
     Process("P3", [3, 0, 2], [9, 0, 2]),
     Process("P4", [2, 1, 1], [2, 2, 2]),
     Process("P5", [0, 0, 2], [4, 3, 3])]
  }

  function DefaultResources(): seq<Resource> {
    [Resource(1, 10, 3), Resource(2, 5, 2), Resource(3, 7, 2)]
  }

  /** One more process that fits joins a safe order, and the available
      vector grows by its allocation. */
  lemma Extend(procs: seq<Process>, avail0: seq<int>, order: seq<nat>, i: nat, before: seq<int>, after: seq<int>)
    requires Shaped(procs, |avail0|) && InRange(order, |procs|) && Distinct(order) && i < |procs| && i !in order
    requires SafeOrder(procs, avail0, order) && before == Avail(avail0, procs, Members(order))
    requires Fits(Need(procs[i]), before)
    requires |after| == |before| && forall j :: 0 <= j < |before| ==> after[j] == before[j] + procs[i].allocation[j]
    ensures SafeOrder(procs, avail0, order + [i]) && after == Avail(avail0, procs, Members(order + [i]))
  {
    AdmitSafe(procs, avail0, order, i);
    AdmitOrder(order, |procs|, i);
    ReleaseAvail(avail0, procs, Members(order), i, before, after);
  }

  lemma DefaultNeeds()
    ensures Shaped(DefaultProcesses(), 3) && NonNegative(DefaultProcesses())
    ensures Need(DefaultProcesses()[0]) == [7, 4, 3] && Need(DefaultProcesses()[1]) == [1, 2, 2]
    ensures Need(DefaultProcesses()[2]) == [6, 0, 0] && Need(DefaultProcesses()[3]) == [0, 1, 1]
    ensures Need(DefaultProcesses()[4]) == [4, 3, 1]
  {
  }

  lemma DefaultStart()
    ensures Shaped(DefaultProcesses(), 3)
    ensures Available(DefaultResources()) == [3, 2, 2]
    ensures Avail([3, 2, 2], DefaultProcesses(), Members([])) == [3, 2, 2]
  {
    forall j | 0 <= j < 3
      ensures Pool(DefaultProcesses(), {}, j, 5) == 0
    {
      PoolNone(DefaultProcesses(), j, 5);
    }
  }

  /** The example's first sweep lets P2 finish, then P4, then P5. */
  lemma DefaultAfterP2()
    ensures Shaped(DefaultProcesses(), 3)
    ensures SafeOrder(DefaultProcesses(), [3, 2, 2], [1])
    ensures Avail([3, 2, 2], DefaultProcesses(), Members([1])) == [5, 2, 2]
  {
    DefaultNeeds();
    DefaultStart();
    Extend(DefaultProcesses(), [3, 2, 2], [], 1, [3, 2, 2], [5, 2, 2]);
    assert [] + [1] == [1];
  }

  lemma DefaultAfterP4()
    ensures Shaped(DefaultProcesses(), 3)
    ensures SafeOrder(DefaultProcesses(), [3, 2, 2], [1, 3])
    ensures Avail([3, 2, 2], DefaultProcesses(), Members([1, 3])) == [7, 3, 3]
  {
    DefaultNeeds();
    DefaultAfterP2();
    Extend(DefaultProcesses(), [3, 2, 2], [1], 3, [5, 2, 2], [7, 3, 3]);
    assert [1] + [3] == [1, 3];
  }

  lemma DefaultAfterP5()
    ensures Shaped(DefaultProcesses(), 3)
    ensures SafeOrder(DefaultProcesses(), [3, 2, 2], [1, 3, 4])
    ensures Avail([3, 2, 2], DefaultProcesses(), Members([1, 3, 4])) == [7, 3, 5]
  {
    DefaultNeeds();
    DefaultAfterP4();
    Extend(DefaultProcesses(), [3, 2, 2], [1, 3], 4, [7, 3, 3], [7, 3, 5]);
    assert [1, 3] + [4] == [1, 3, 4];
  }

  /** The second sweep lets P3 finish: P2, P4, P5, P3 is a safe order of
      the example, after which the available vector is (10, 3, 7). */
  lemma DefaultSafe()
    ensures Shaped(DefaultProcesses(), 3)
    ensures SafeOrder(DefaultProcesses(), [3, 2, 2], [1, 3, 4, 2])
    ensures Avail([3, 2, 2], DefaultProcesses(), Members([1, 3, 4, 2])) == [10, 3, 7]
  {
    DefaultNeeds();
    DefaultAfterP5();
    Extend(DefaultProcesses(), [3, 2, 2], [1, 3, 4], 2, [7, 3, 5], [10, 3, 7]);
    assert [1, 3, 4] + [2] == [1, 3, 4, 2];
  }

  /** After P2, P4, P5, P3, P1 still needs 4 units of the second resource
      with only 3 available. */
  lemma DefaultStuck()
    ensures Shaped(DefaultProcesses(), 3)
    ensures Stuck(DefaultProcesses(), [3, 2, 2], Members([1, 3, 4, 2]))
  {
    DefaultSafe();
    DefaultNeeds();
    var done := Members([1, 3, 4, 2]);
    forall i | 0 <= i < 5 && i !in done
      ensures !Fits(Need(DefaultProcesses()[i]), Avail([3, 2, 2], DefaultProcesses(), done))
    {
      assert i == 0;
      assert [7, 4, 3][1] > [10, 3, 7][1];
    }
  }

  /** The example state is unsafe: no safe order lets P1 finish, while P2,
      P3, P4 and P5 each finish in some safe order. */
  lemma DefaultUnsafe()
    ensures Shaped(DefaultProcesses(), 3)
    ensures !SafeState(DefaultProcesses(), Available(DefaultResources()))
    ensures Reachable(DefaultProcesses(), Available(DefaultResources())) == {1, 2, 3, 4}
  {
    DefaultNeeds();
    DefaultStart();
    DefaultSafe();
    DefaultStuck();
    var order: seq<nat> := [1, 3, 4, 2];
    assert Members(order) == {1, 2, 3, 4};
    assert InRange(order, 5) && !(0 in order);
    SettledVerdict(DefaultProcesses(), [3, 2, 2], order);
  }

  /** On the example, whatever safe order the sweeps follow, they finish
      P2, P3, P4 and P5 and leave only P1: the Banker's algorithm reports the
      state unsafe and detection reports `["P1"]` as deadlocked. */
  lemma DefaultOutcome(order: seq<nat>)
    requires InRange(order, 5)
    requires SafeOrder(DefaultProcesses(), Available(DefaultResources()), order)
    requires Stuck(DefaultProcesses(), Available(DefaultResources()), Members(order))
    ensures Members(order) == {1, 2, 3, 4}
    ensures Ids(DefaultProcesses(), Pending(5, Members(order))) == ["P1"]
  {
    assert Members(order) == {1, 2, 3, 4} by {
      DefaultStart();
      DefaultNeeds();
      DefaultSafe();
      DefaultStuck();
      FinishedSetUnique(DefaultProcesses(), [3, 2, 2], order, [1, 3, 4, 2]);
      assert Members([1, 3, 4, 2]) == {1, 2, 3, 4};
    }
    assert Pending(5, {1, 2, 3, 4}) == [0];
    IdsOne(DefaultProcesses(), 0);
  }
}
