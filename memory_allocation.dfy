/** Contiguous memory allocation: each process, in input order, is placed in
    one free block large enough for it, chosen by first fit (lowest index),
    best fit (smallest such block) or worst fit (largest such block). A block
    holds at most one process; the unused rest of an occupied block is its
    internal fragmentation. */
module MemoryAllocation {

  /** A memory block of the result table. `isAllocated` is the source's
      `allocated` flag, renamed because `allocated` is a Dafny keyword. */
  datatype Block = Block(id: int, size: int, isAllocated: bool, fragmentation: int)

  /** A process asking for `size` units (`MemoryProcess`). */
  datatype Request = Request(id: string, size: int, isAllocated: bool)

  /** What an allocation run reports (`MemoryAllocationResult`). */
  datatype Allocation = Allocation(blocks: seq<Block>, processes: seq<Request>,
                                   successfulAllocations: int, totalFragmentation: int)

  datatype Fit = FirstFit | BestFit | WorstFit

  /** Block `j` is free (not among `taken`) and large enough for `need`. */
  ghost predicate Candidate(sizes: seq<int>, taken: seq<int>, need: int, j: int) {
    0 <= j < |sizes| && j !in taken && sizes[j] >= need
  }

  /** Under `fit`, block `c` is at least as good a choice as block `j`; ties
      go to the lower index. */
  ghost predicate Prefers(fit: Fit, sizes: seq<int>, c: nat, j: nat)
    requires c < |sizes| && j < |sizes|
  {
    match fit
    case FirstFit => c <= j
    case BestFit => sizes[c] < sizes[j] || (sizes[c] == sizes[j] && c <= j)
    case WorstFit => sizes[c] > sizes[j] || (sizes[c] == sizes[j] && c <= j)
  }

  /** `c` is the block `fit` picks for a request of `need` units among the
      blocks of sizes `sizes` not yet `taken`, or -1 when none is large enough. */
  ghost predicate Chosen(fit: Fit, sizes: seq<int>, taken: seq<int>, need: int, c: int) {
    if c == -1 then forall j :: 0 <= j < |sizes| ==> !Candidate(sizes, taken, need, j)
    else Candidate(sizes, taken, need, c)
         && forall j :: 0 <= j < |sizes| && Candidate(sizes, taken, need, j) ==> Prefers(fit, sizes, c, j)
  }

  /** The choice is determined: every rule picks exactly one answer. */
  lemma ChosenUnique(fit: Fit, sizes: seq<int>, taken: seq<int>, need: int, c: int, d: int)
    requires Chosen(fit, sizes, taken, need, c) && Chosen(fit, sizes, taken, need, d)
    ensures c == d
  {
    if c != -1 && d != -1 {
      assert Prefers(fit, sizes, c, d) && Prefers(fit, sizes, d, c);
    }
  }

  function Sizes(blocks: seq<Block>): (s: seq<int>)
    ensures |s| == |blocks| && forall j :: 0 <= j < |blocks| ==> s[j] == blocks[j].size
  {
    seq(|blocks|, j requires 0 <= j < |blocks| => blocks[j].size)
  }

  /** The occupied blocks of `table` are exactly those in `taken`. */
  ghost predicate Occupied(table: seq<Block>, taken: seq<int>) {
    forall j :: 0 <= j < |table| ==> (table[j].isAllocated <==> j in taken)
  }

  /** First fit: the first free block, in table order, that is large enough. */
  method FirstFitBlock(table: seq<Block>, need: int, ghost taken: seq<int>) returns (c: int)
    requires Occupied(table, taken)
    ensures Chosen(FirstFit, Sizes(table), taken, need, c)
  {
    var j := 0;
    while j < |table|
      invariant 0 <= j <= |table|
      invariant forall k :: 0 <= k < j ==> !Candidate(Sizes(table), taken, need, k)
    {
      if !table[j].isAllocated && table[j].size >= need {
        return j;
      }
      j := j + 1;
    }
    return -1;
  }

  /** Best fit: the smallest free block that is large enough, the first of
      equal ones. The source starts from an infinite best size, so the first
      candidate is always taken; here that is the `best == -1` test. */
  method BestFitBlock(table: seq<Block>, need: int, ghost taken: seq<int>) returns (best: int)
    requires Occupied(table, taken)
    ensures Chosen(BestFit, Sizes(table), taken, need, best)
  {
    var bestSize := 0;
    best := -1;
    var j := 0;
    while j < |table|
      invariant 0 <= j <= |table| && -1 <= best < j
      invariant best == -1 ==> forall k :: 0 <= k < j ==> !Candidate(Sizes(table), taken, need, k)
      invariant best != -1 ==> Candidate(Sizes(table), taken, need, best) && bestSize == table[best].size
      invariant best != -1 ==> forall k :: 0 <= k < j && Candidate(Sizes(table), taken, need, k) ==>
                                 Prefers(BestFit, Sizes(table), best, k)
    {
      if !table[j].isAllocated && table[j].size >= need {
        if best == -1 || table[j].size < bestSize {
          best := j;
          bestSize := table[j].size;
        }
      }
      j := j + 1;
    }
  }

  /** Worst fit: the largest free block that is large enough, the first of
      equal ones. The best size so far starts at -1, below every size a
      request of `need >= 0` can use. */
  method WorstFitBlock(table: seq<Block>, need: int, ghost taken: seq<int>) returns (worst: int)
    requires Occupied(table, taken) && need >= 0
    ensures Chosen(WorstFit, Sizes(table), taken, need, worst)
  {
    var worstSize := -1;
    worst := -1;
    var j := 0;
    while j < |table|
      invariant 0 <= j <= |table| && -1 <= worst < j
      invariant worst == -1 ==> worstSize == -1
      invariant worst == -1 ==> forall k :: 0 <= k < j ==> !Candidate(Sizes(table), taken, need, k)
      invariant worst != -1 ==> Candidate(Sizes(table), taken, need, worst) && worstSize == table[worst].size
      invariant worst != -1 ==> forall k :: 0 <= k < j && Candidate(Sizes(table), taken, need, k) ==>
                                  Prefers(WorstFit, Sizes(table), worst, k)
    {
      if !table[j].isAllocated && table[j].size >= need {
        if table[j].size > worstSize {
          worst := j;
          worstSize := table[j].size;
        }
      }
      j := j + 1;
    }
  }

  /** How many blocks of the table are occupied. */
  function CountAllocated(table: seq<Block>): nat {
    if table == [] then 0
    else CountAllocated(table[..|table| - 1]) + (if table[|table| - 1].isAllocated then 1 else 0)
  }

  /** The summed fragmentation of the table. */
  function Fragmentation(table: seq<Block>): int {
    if table == [] then 0 else Fragmentation(table[..|table| - 1]) + table[|table| - 1].fragmentation
  }

  /** How many requests were placed (`placement[i] != -1`). */
  function Placed(placement: seq<int>): nat {
    if placement == [] then 0
    else Placed(placement[..|placement| - 1]) + (if placement[|placement| - 1] >= 0 then 1 else 0)
  }

  /** Occupying one free, unfragmented block adds one to the count and its
      fragmentation to the total. */
  lemma {:induction false} OccupyTotals(table: seq<Block>, c: nat, b: Block)
    requires c < |table| && !table[c].isAllocated && table[c].fragmentation == 0 && b.isAllocated
    ensures CountAllocated(table[c := b]) == CountAllocated(table) + 1
    ensures Fragmentation(table[c := b]) == Fragmentation(table) + b.fragmentation
  {
    var t := table[c := b];
    if c < |table| - 1 {
      assert t[..|t| - 1] == table[..|table| - 1][c := b];
      OccupyTotals(table[..|table| - 1], c, b);
    } else {
      assert t[..|t| - 1] == table[..|table| - 1];
    }
  }

  lemma {:induction false} PlacedBound(placement: seq<int>)
    ensures Placed(placement) <= |placement|
  {
    if placement != [] {
      PlacedBound(placement[..|placement| - 1]);
    }
  }

  lemma {:induction false} CountAllocatedBound(table: seq<Block>)
    ensures CountAllocated(table) <= |table|
  {
    if table != [] {
      CountAllocatedBound(table[..|table| - 1]);
    }
  }

  /** A table whose blocks carry no fragmentation sums to zero. */
  lemma {:induction false} FreshTotals(table: seq<Block>)
    requires forall j :: 0 <= j < |table| ==> !table[j].isAllocated && table[j].fragmentation == 0
    ensures CountAllocated(table) == 0 && Fragmentation(table) == 0
  {
    if table != [] {
      FreshTotals(table[..|table| - 1]);
    }
  }

  /** Every entry of `placement` is the choice `fit` makes for its request
      given the blocks taken by the entries before it. */
  ghost predicate ChosenAll(fit: Fit, sizes: seq<int>, requests: seq<Request>, placement: seq<int>)
    decreases |placement|
  {
    && |placement| <= |requests|
    && (placement != [] ==>
          var n := |placement| - 1;
          ChosenAll(fit, sizes, requests, placement[..n]) && Chosen(fit, sizes, placement[..n], requests[n].size, placement[n]))
  }

  lemma {:induction false} ChosenAllElim(fit: Fit, sizes: seq<int>, requests: seq<Request>, placement: seq<int>)
    requires ChosenAll(fit, sizes, requests, placement)
    ensures forall k :: 0 <= k < |placement| ==> Chosen(fit, sizes, placement[..k], requests[k].size, placement[k])
  {
    if placement != [] {
      var p := placement[..|placement| - 1];
      ChosenAllElim(fit, sizes, requests, p);
      forall k | 0 <= k < |p|
        ensures Chosen(fit, sizes, placement[..k], requests[k].size, placement[k])
      {
        assert p[..k] == placement[..k];
        assert Chosen(fit, sizes, p[..k], requests[k].size, p[k]);
      }
    }
  }

  /** The invariant of the allocation loop after the first `i` requests,
      placed at `placement`. */
  ghost predicate Progress(fit: Fit, blocks: seq<Block>, requests: seq<Request>, i: nat, placement: seq<int>,
                           table: seq<Block>, result: seq<Request>, successes: int, total: int)
  {
    && i <= |requests| && |placement| == i && |table| == |blocks| && |result| == |requests|
    && (forall k :: 0 <= k < i ==> -1 <= placement[k] < |blocks|)
    && ChosenAll(fit, Sizes(blocks), requests, placement)
    && (forall j :: 0 <= j < |table| ==> table[j].id == blocks[j].id && table[j].size == blocks[j].size)
    && Occupied(table, placement)
    && (forall j :: 0 <= j < |table| && !table[j].isAllocated ==> table[j].fragmentation == 0)
    && (forall k :: 0 <= k < i && placement[k] >= 0 ==>
          table[placement[k]].fragmentation == blocks[placement[k]].size - requests[k].size)
    && (forall k :: 0 <= k < |requests| ==>
          result[k] == requests[k].(isAllocated := k < i && placement[k] >= 0))
    && successes == Placed(placement) == CountAllocated(table)
    && total == Fragmentation(table)
  }

  /** A placed request is never placed again: a chosen block is free. */
  lemma {:induction false} PlacementInjective(fit: Fit, blocks: seq<Block>, requests: seq<Request>, placement: seq<int>)
    requires |placement| <= |requests|
    requires forall k :: 0 <= k < |placement| ==>
               Chosen(fit, Sizes(blocks), placement[..k], requests[k].size, placement[k])
    ensures forall a, b :: 0 <= a < b < |placement| && placement[a] >= 0 ==> placement[a] != placement[b]
  {
    forall a, b | 0 <= a < b < |placement| && placement[a] >= 0
      ensures placement[a] != placement[b]
    {
      assert placement[a] in placement[..b];
      assert Chosen(fit, Sizes(blocks), placement[..b], requests[b].size, placement[b]);
    }
  }

  /** Places request `i`: the block `fit` chooses, if any, becomes occupied
      with the unused rest as its fragmentation, the request is marked
      allocated and the count and total grow. */
  method PlaceNext(fit: Fit, blocks: seq<Block>, requests: seq<Request>, i: nat, ghost placement: seq<int>,
                   table: seq<Block>, result: seq<Request>, successes: int, total: int)
    returns (ghost placement': seq<int>, table': seq<Block>, result': seq<Request>, successes': int, total': int)
    requires Progress(fit, blocks, requests, i, placement, table, result, successes, total) && i < |requests|
    requires fit == WorstFit ==> requests[i].size >= 0
    ensures Progress(fit, blocks, requests, i + 1, placement', table', result', successes', total')
  {
    assert Sizes(table) == Sizes(blocks);
    var need := requests[i].size;
    var c;
    match fit {
      case FirstFit => c := FirstFitBlock(table, need, placement);
      case BestFit => c := BestFitBlock(table, need, placement);
      case WorstFit => c := WorstFitBlock(table, need, placement);
    }
    placement' := placement + [c];
    if c != -1 {
      var b := table[c].(isAllocated := true, fragmentation := table[c].size - need);
      table' := table[c := b];
      PlaceStep(fit, blocks, requests, i, placement, table, result, successes, total, c, placement', table');
      result' := result[i := result[i].(isAllocated := true)];
      successes' := successes + 1;
      total' := total + b.fragmentation;
    } else {
      SkipStep(fit, blocks, requests, i, placement, table, result, successes, total, placement');
      table', result', successes', total' := table, result, successes, total;
    }
  }

  /** The loop invariant after request `i` is given block `c`. */
  lemma {:induction false} PlaceStep(fit: Fit, blocks: seq<Block>, requests: seq<Request>, i: nat,
                                     placement: seq<int>, table: seq<Block>, result: seq<Request>, successes: int,
                                     total: int, c: nat, placement': seq<int>, table': seq<Block>)
    requires Progress(fit, blocks, requests, i, placement, table, result, successes, total) && i < |requests|
    requires Chosen(fit, Sizes(blocks), placement, requests[i].size, c) && c < |table|
    requires placement' == placement + [c]
    requires table' == table[c := table[c].(isAllocated := true, fragmentation := table[c].size - requests[i].size)]
    ensures Progress(fit, blocks, requests, i + 1, placement', table', result[i := result[i].(isAllocated := true)],
                     successes + 1, total + table[c].size - requests[i].size)
  {
    assert placement'[..|placement'| - 1] == placement;
    OccupyTotals(table, c, table'[c]);
    OccupyStep(blocks, requests, placement, table, c, placement', table');
    MarkStep(requests, result, placement, c);
  }

  /** Request `|placement|` is marked allocated exactly when it got block `c`. */
  lemma {:induction false} MarkStep(requests: seq<Request>, result: seq<Request>, placement: seq<int>, c: int)
    requires |result| == |requests| && |placement| < |requests|
    requires forall k :: 0 <= k < |requests| ==>
               result[k] == requests[k].(isAllocated := k < |placement| && placement[k] >= 0)
    ensures var i, p' := |placement|, placement + [c];
      var result' := if c >= 0 then result[i := result[i].(isAllocated := true)] else result;
      forall k :: 0 <= k < |requests| ==> result'[k] == requests[k].(isAllocated := k < i + 1 && p'[k] >= 0)
  {
  }

  /** The loop invariant after request `i` is given no block. */
  lemma {:induction false} SkipStep(fit: Fit, blocks: seq<Block>, requests: seq<Request>, i: nat,
                                    placement: seq<int>, table: seq<Block>, result: seq<Request>, successes: int,
                                    total: int, placement': seq<int>)
    requires Progress(fit, blocks, requests, i, placement, table, result, successes, total) && i < |requests|
    requires Chosen(fit, Sizes(blocks), placement, requests[i].size, -1)
    requires placement' == placement + [-1]
    ensures Progress(fit, blocks, requests, i + 1, placement', table, result, successes, total)
  {
    assert placement'[..|placement'| - 1] == placement;
    SkipTable(blocks, requests, placement, table, placement');
    MarkStep(requests, result, placement, -1);
  }

  /** The block table is unchanged when request `|placement|` gets no block. */
  lemma {:induction false} SkipTable(blocks: seq<Block>, requests: seq<Request>, placement: seq<int>, table: seq<Block>,
                 placement': seq<int>)
    requires |table| == |blocks| && |placement| < |requests|
    requires forall k :: 0 <= k < |placement| ==> -1 <= placement[k] < |blocks|
    requires Occupied(table, placement) && placement' == placement + [-1]
    requires forall k :: 0 <= k < |placement| && placement[k] >= 0 ==>
               table[placement[k]].fragmentation == blocks[placement[k]].size - requests[k].size
    ensures Occupied(table, placement')
    ensures forall k :: 0 <= k < |placement'| && placement'[k] >= 0 ==>
              table[placement'[k]].fragmentation == blocks[placement'[k]].size - requests[k].size
  {
    forall j | 0 <= j < |table|
      ensures table[j].isAllocated <==> j in placement'
    {
      assert j in placement' <==> j in placement;
    }
  }

  /** The block table after block `c`, free before, is given to request
      `|placement|`. */
  lemma {:induction false} OccupyStep(blocks: seq<Block>, requests: seq<Request>, placement: seq<int>, table: seq<Block>, c: nat,
                   placement': seq<int>, table': seq<Block>)
    requires |placement| < |requests| && |table| == |blocks| && c < |table| && c !in placement
    requires forall k :: 0 <= k < |placement| ==> -1 <= placement[k] < |blocks|
    requires forall j :: 0 <= j < |table| ==> table[j].id == blocks[j].id && table[j].size == blocks[j].size
    requires Occupied(table, placement)
    requires forall j :: 0 <= j < |table| && !table[j].isAllocated ==> table[j].fragmentation == 0
    requires forall k :: 0 <= k < |placement| && placement[k] >= 0 ==>
               table[placement[k]].fragmentation == blocks[placement[k]].size - requests[k].size
    requires placement' == placement + [c]
    requires table' == table[c := table[c].(isAllocated := true,
                                            fragmentation := table[c].size - requests[|placement|].size)]
    ensures forall j :: 0 <= j < |table'| ==> table'[j].id == blocks[j].id && table'[j].size == blocks[j].size
    ensures Occupied(table', placement')
    ensures forall j :: 0 <= j < |table'| && !table'[j].isAllocated ==> table'[j].fragmentation == 0
    ensures forall k :: 0 <= k < |placement'| && placement'[k] >= 0 ==>
              table'[placement'[k]].fragmentation == blocks[placement'[k]].size - requests[k].size
  {
    forall k | 0 <= k < |placement| && placement[k] >= 0
      ensures placement[k] != c
    {
      assert placement[k] in placement;
    }
  }

  /** What an allocation run promises: `placement` records, for each
      request in order, the block its strategy chooses among those not yet
      taken (or -1); the result table keeps every block's id and size, marks
      exactly the chosen blocks occupied, each with the unused rest of the
      block as its fragmentation; each request is marked allocated exactly
      when it got a block; no block is given twice; the count and the total
      fragmentation agree with the table. */
  ghost predicate Outcome(fit: Fit, blocks: seq<Block>, requests: seq<Request>, placement: seq<int>, r: Allocation) {
    && |placement| == |requests|
    && (forall k :: 0 <= k < |requests| ==>
          -1 <= placement[k] < |blocks| && Chosen(fit, Sizes(blocks), placement[..k], requests[k].size, placement[k]))
    && |r.blocks| == |blocks|
    && (forall j :: 0 <= j < |blocks| ==>
          && r.blocks[j].id == blocks[j].id && r.blocks[j].size == blocks[j].size
          && (r.blocks[j].isAllocated <==> j in placement)
          && (!r.blocks[j].isAllocated ==> r.blocks[j].fragmentation == 0))
    && (forall k :: 0 <= k < |requests| && placement[k] >= 0 ==>
          r.blocks[placement[k]].fragmentation == blocks[placement[k]].size - requests[k].size >= 0)
    && (forall a, b :: 0 <= a < b < |requests| && placement[a] >= 0 ==> placement[a] != placement[b])
    && |r.processes| == |requests|
    && (forall k :: 0 <= k < |requests| ==> r.processes[k] == requests[k].(isAllocated := placement[k] >= 0))
    && r.successfulAllocations == Placed(placement) == CountAllocated(r.blocks)
    && r.successfulAllocations <= |blocks| && r.successfulAllocations <= |requests|
    && r.totalFragmentation == Fragmentation(r.blocks)
  }

  /** Once every request has been handled, the loop invariant gives the
      promised outcome. */
  lemma Conclude(fit: Fit, blocks: seq<Block>, requests: seq<Request>, placement: seq<int>,
                 table: seq<Block>, result: seq<Request>, successes: int, total: int)
    requires Progress(fit, blocks, requests, |requests|, placement, table, result, successes, total)
    ensures Outcome(fit, blocks, requests, placement, Allocation(table, result, successes, total))
  {
    ChosenAllElim(fit, Sizes(blocks), requests, placement);
    PlacementInjective(fit, blocks, requests, placement);
    PlacedBound(placement);
    CountAllocatedBound(table);
    forall k | 0 <= k < |requests| && placement[k] >= 0
      ensures blocks[placement[k]].size >= requests[k].size
    {
      assert Chosen(fit, Sizes(blocks), placement[..k], requests[k].size, placement[k]);
    }
  }

  /** Two placements that both follow the fit rule agree on their first
      `k` entries. */
  lemma {:induction false} PlacementUnique(fit: Fit, sizes: seq<int>, requests: seq<Request>,
                                           p1: seq<int>, p2: seq<int>, k: nat)
    requires |p1| == |p2| == |requests| && k <= |requests|
    requires forall i :: 0 <= i < |requests| ==> Chosen(fit, sizes, p1[..i], requests[i].size, p1[i])
    requires forall i :: 0 <= i < |requests| ==> Chosen(fit, sizes, p2[..i], requests[i].size, p2[i])
    ensures p1[..k] == p2[..k]
  {
    if k > 0 {
      PlacementUnique(fit, sizes, requests, p1, p2, k - 1);
      assert Chosen(fit, sizes, p1[..k - 1], requests[k - 1].size, p2[k - 1]);
      ChosenUnique(fit, sizes, p1[..k - 1], requests[k - 1].size, p1[k - 1], p2[k - 1]);
      assert p1[..k] == p1[..k - 1] + [p1[k - 1]];
      assert p2[..k] == p2[..k - 1] + [p2[k - 1]];
    }
  }

  /** For one placement, the outcome fixes every block of the table and
      every request of the result. */
  lemma OutcomeResult(fit: Fit, blocks: seq<Block>, requests: seq<Request>,
                      p: seq<int>, r1: Allocation, r2: Allocation)
    requires Outcome(fit, blocks, requests, p, r1) && Outcome(fit, blocks, requests, p, r2)
    ensures r1 == r2
  {
    forall j | 0 <= j < |blocks|
      ensures r1.blocks[j] == r2.blocks[j]
    {
      if j in p {
        var k :| 0 <= k < |p| && p[k] == j;
        assert r1.blocks[j].fragmentation == r2.blocks[j].fragmentation;
      }
    }
    assert r1.blocks == r2.blocks;
    assert r1.processes == r2.processes;
  }

  /** The outcome is determined by the fit rule, the blocks and the
      requests: one placement and one result satisfy it. */
  lemma OutcomeUnique(fit: Fit, blocks: seq<Block>, requests: seq<Request>,
                      p1: seq<int>, r1: Allocation, p2: seq<int>, r2: Allocation)
    requires Outcome(fit, blocks, requests, p1, r1) && Outcome(fit, blocks, requests, p2, r2)
    ensures p1 == p2 && r1 == r2
  {
    PlacementUnique(fit, Sizes(blocks), requests, p1, p2, |requests|);
    assert p1 == p1[..|requests|] && p2 == p2[..|requests|];
    OutcomeResult(fit, blocks, requests, p1, r1, r2);
  }

  /** The allocation loop shared by the three strategies: the block table is
      reset to free and unfragmented, then each request in turn is given the
      block `fit` chooses, if any; `placement` records the block index of
      each request, or -1. */
  method Allocate(fit: Fit, blocks: seq<Block>, requests: seq<Request>) returns (r: Allocation)
    requires fit == WorstFit ==> forall k :: 0 <= k < |requests| ==> requests[k].size >= 0
    ensures exists placement :: Outcome(fit, blocks, requests, placement, r)
  {
    var table := seq(|blocks|, j requires 0 <= j < |blocks| =>
                       blocks[j].(isAllocated := false, fragmentation := 0));
    var result := seq(|requests|, k requires 0 <= k < |requests| => requests[k].(isAllocated := false));
    var successes, total := 0, 0;
    ghost var placement := [];
    FreshTotals(table);
    var i := 0;
    while i < |requests|
      invariant Progress(fit, blocks, requests, i, placement, table, result, successes, total)
    {
      placement, table, result, successes, total
        := PlaceNext(fit, blocks, requests, i, placement, table, result, successes, total);
      i := i + 1;
    }
    Conclude(fit, blocks, requests, placement, table, result, successes, total);
    r := Allocation(table, result, successes, total);
    assert Outcome(fit, blocks, requests, placement, r);
  }

  /** First fit (`firstFit`). */
  method FirstFitAllocate(blocks: seq<Block>, requests: seq<Request>) returns (r: Allocation)
    ensures exists placement :: Outcome(FirstFit, blocks, requests, placement, r)
  {
    r := Allocate(FirstFit, blocks, requests);
  }

  /** Best fit (`bestFit`). */
  method BestFitAllocate(blocks: seq<Block>, requests: seq<Request>) returns (r: Allocation)
    ensures exists placement :: Outcome(BestFit, blocks, requests, placement, r)
  {
    r := Allocate(BestFit, blocks, requests);
  }

  /** Worst fit (`worstFit`); request sizes are at least 1 in the form that
      collects them, so never below the -1 the scan starts from. */
  method WorstFitAllocate(blocks: seq<Block>, requests: seq<Request>) returns (r: Allocation)
    requires forall k :: 0 <= k < |requests| ==> requests[k].size >= 0
    ensures exists placement :: Outcome(WorstFit, blocks, requests, placement, r)
  {
    r := Allocate(WorstFit, blocks, requests);
  }
}
