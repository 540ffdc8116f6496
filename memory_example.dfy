/** The memory screen's default blocks and processes under each fit rule. */
module MemoryAllocationExample {
  import opened MemoryAllocation

  /** Blocks 1..5 of 100, 500, 200, 300 and 600 units. */
  function DefaultBlocks(): seq<Block> {
    [Block(1, 100, false, 0), Block(2, 500, false, 0), Block(3, 200, false, 0),
     Block(4, 300, false, 0), Block(5, 600, false, 0)]
  }

  /** Processes P1..P4 asking for 212, 417, 112 and 426 units. */
  function DefaultRequests(): seq<Request> {
    [Request("P1", 212, false), Request("P2", 417, false), Request("P3", 112, false),
     Request("P4", 426, false)]
  }

  /** The placement of the default requests, given the four choices the fit
      rule makes one after the other. */
  lemma DefaultPlacement(fit: Fit, p: seq<int>, r: Allocation, c0: int, c1: int, c2: int, c3: int)
    requires Outcome(fit, DefaultBlocks(), DefaultRequests(), p, r)
    requires Chosen(fit, Sizes(DefaultBlocks()), [], 212, c0)
    requires Chosen(fit, Sizes(DefaultBlocks()), [c0], 417, c1)
    requires Chosen(fit, Sizes(DefaultBlocks()), [c0, c1], 112, c2)
    requires Chosen(fit, Sizes(DefaultBlocks()), [c0, c1, c2], 426, c3)
    ensures p == [c0, c1, c2, c3]
  {
    var sizes, q := Sizes(DefaultBlocks()), DefaultRequests();
    assert Chosen(fit, sizes, p[..0], q[0].size, p[0]);
    assert p[..0] == [];
    ChosenUnique(fit, sizes, [], 212, p[0], c0);
    assert Chosen(fit, sizes, p[..1], q[1].size, p[1]);
    assert p[..1] == [c0];
    ChosenUnique(fit, sizes, [c0], 417, p[1], c1);
    assert Chosen(fit, sizes, p[..2], q[2].size, p[2]);
    assert p[..2] == [c0, c1];
    ChosenUnique(fit, sizes, [c0, c1], 112, p[2], c2);
    assert Chosen(fit, sizes, p[..3], q[3].size, p[3]);
    assert p[..3] == [c0, c1, c2];
    ChosenUnique(fit, sizes, [c0, c1, c2], 426, p[3], c3);
  }

  /** First fit takes, for each process in turn, the lowest-numbered free
      block that is large enough. */
  lemma FirstFitChoices()
    ensures Chosen(FirstFit, Sizes(DefaultBlocks()), [], 212, 1)
    ensures Chosen(FirstFit, Sizes(DefaultBlocks()), [1], 417, 4)
    ensures Chosen(FirstFit, Sizes(DefaultBlocks()), [1, 4], 112, 2)
    ensures Chosen(FirstFit, Sizes(DefaultBlocks()), [1, 4, 2], 426, -1)
  {
    var sizes := Sizes(DefaultBlocks());
    assert sizes == [100, 500, 200, 300, 600];
    forall j | 0 <= j < 5 && Candidate(sizes, [], 212, j)
      ensures Prefers(FirstFit, sizes, 1, j)
    {
      assert j != 0;
    }
    forall j | 0 <= j < 5 && Candidate(sizes, [1], 417, j)
      ensures Prefers(FirstFit, sizes, 4, j)
    {
      assert j != 0 && j != 1 && j != 2 && j != 3;
    }
    forall j | 0 <= j < 5 && Candidate(sizes, [1, 4], 112, j)
      ensures Prefers(FirstFit, sizes, 2, j)
    {
      assert j != 0 && j != 1;
    }
    forall j | 0 <= j < 5
      ensures !Candidate(sizes, [1, 4, 2], 426, j)
    {
      assert j == 0 || j == 1 || j == 2 || j == 3 || j == 4;
    }
  }

  /** Best fit takes, for each process in turn, the smallest free block that
      is large enough. */
  lemma BestFitChoices()
    ensures Chosen(BestFit, Sizes(DefaultBlocks()), [], 212, 3)
    ensures Chosen(BestFit, Sizes(DefaultBlocks()), [3], 417, 1)
    ensures Chosen(BestFit, Sizes(DefaultBlocks()), [3, 1], 112, 2)
    ensures Chosen(BestFit, Sizes(DefaultBlocks()), [3, 1, 2], 426, 4)
  {
    var sizes := Sizes(DefaultBlocks());
    assert sizes == [100, 500, 200, 300, 600];
    forall j | 0 <= j < 5 && Candidate(sizes, [], 212, j)
      ensures Prefers(BestFit, sizes, 3, j)
    {
      assert j == 1 || j == 3 || j == 4;
    }
    forall j | 0 <= j < 5 && Candidate(sizes, [3], 417, j)
      ensures Prefers(BestFit, sizes, 1, j)
    {
      assert j == 1 || j == 4;
    }
    forall j | 0 <= j < 5 && Candidate(sizes, [3, 1], 112, j)
      ensures Prefers(BestFit, sizes, 2, j)
    {
      assert j == 2 || j == 4;
    }
    forall j | 0 <= j < 5 && Candidate(sizes, [3, 1, 2], 426, j)
      ensures Prefers(BestFit, sizes, 4, j)
    {
      assert j == 4;
    }
  }

  /** Worst fit takes, for each process in turn, the largest free block that
      is large enough. */
  lemma WorstFitChoices()
    ensures Chosen(WorstFit, Sizes(DefaultBlocks()), [], 212, 4)
    ensures Chosen(WorstFit, Sizes(DefaultBlocks()), [4], 417, 1)
    ensures Chosen(WorstFit, Sizes(DefaultBlocks()), [4, 1], 112, 3)
    ensures Chosen(WorstFit, Sizes(DefaultBlocks()), [4, 1, 3], 426, -1)
  {
    var sizes := Sizes(DefaultBlocks());
    assert sizes == [100, 500, 200, 300, 600];
    forall j | 0 <= j < 5 && Candidate(sizes, [], 212, j)
      ensures Prefers(WorstFit, sizes, 4, j)
    {
      assert j == 1 || j == 3 || j == 4;
    }
    forall j | 0 <= j < 5 && Candidate(sizes, [4], 417, j)
      ensures Prefers(WorstFit, sizes, 1, j)
    {
      assert j == 1;
    }
    forall j | 0 <= j < 5 && Candidate(sizes, [4, 1], 112, j)
      ensures Prefers(WorstFit, sizes, 3, j)
    {
      assert j == 2 || j == 3;
    }
    forall j | 0 <= j < 5
      ensures !Candidate(sizes, [4, 1, 3], 426, j)
    {
      assert j == 0 || j == 1 || j == 2 || j == 3 || j == 4;
    }
  }

  /** The count and the total of a five-block table, spelled out. */
  lemma {:induction false} Totals5(p: seq<int>, b: seq<Block>)
    requires |p| == 4 && |b| == 5
    ensures Placed(p) == (if p[0] >= 0 then 1 else 0) + (if p[1] >= 0 then 1 else 0)
                         + (if p[2] >= 0 then 1 else 0) + (if p[3] >= 0 then 1 else 0)
    ensures Fragmentation(b) == b[0].fragmentation + b[1].fragmentation + b[2].fragmentation
                                + b[3].fragmentation + b[4].fragmentation
  {
    assert p[..1][..0] == [] && p[..2][..1] == p[..1] && p[..3][..2] == p[..2] && p[..4] == p;
    assert Placed(p[..1]) == (if p[0] >= 0 then 1 else 0);
    assert Placed(p[..2]) == Placed(p[..1]) + (if p[1] >= 0 then 1 else 0);
    assert Placed(p[..3]) == Placed(p[..2]) + (if p[2] >= 0 then 1 else 0);
    assert b[..1][..0] == [] && b[..2][..1] == b[..1] && b[..3][..2] == b[..2];
    assert b[..4][..3] == b[..3] && b[..5] == b;
    assert Fragmentation(b[..1]) == b[0].fragmentation;
    assert Fragmentation(b[..2]) == Fragmentation(b[..1]) + b[1].fragmentation;
    assert Fragmentation(b[..3]) == Fragmentation(b[..2]) + b[2].fragmentation;
    assert Fragmentation(b[..4]) == Fragmentation(b[..3]) + b[3].fragmentation;
  }

  /** A block the placement names holds the rest of its size; any other
      block holds nothing. */
  lemma DefaultFragment(fit: Fit, p: seq<int>, r: Allocation, j: int)
    requires Outcome(fit, DefaultBlocks(), DefaultRequests(), p, r) && 0 <= j < 5
    ensures j !in p ==> r.blocks[j].fragmentation == 0
    ensures forall k :: 0 <= k < 4 && p[k] == j ==>
              r.blocks[j].fragmentation == DefaultBlocks()[j].size - DefaultRequests()[k].size
  {
  }

  /** First fit places P1 in block 2, P2 in block 5 and P3 in block 3, and
      finds no block for P4: 3 allocations, 288 + 183 + 88 = 559 units of
      fragmentation. */
  lemma FirstFitDefault(p: seq<int>, r: Allocation)
    requires Outcome(FirstFit, DefaultBlocks(), DefaultRequests(), p, r)
    ensures p == [1, 4, 2, -1]
    ensures r.successfulAllocations == 3 && r.totalFragmentation == 559
  {
    FirstFitChoices();
    DefaultPlacement(FirstFit, p, r, 1, 4, 2, -1);
    Totals5(p, r.blocks);
    DefaultFragment(FirstFit, p, r, 0);
    DefaultFragment(FirstFit, p, r, 1);
    DefaultFragment(FirstFit, p, r, 2);
    DefaultFragment(FirstFit, p, r, 3);
    DefaultFragment(FirstFit, p, r, 4);
  }

  /** Best fit places P1 in block 4, P2 in block 2, P3 in block 3 and P4 in
      block 5: 4 allocations, 88 + 83 + 88 + 174 = 433 units of
      fragmentation. */
  lemma BestFitDefault(p: seq<int>, r: Allocation)
    requires Outcome(BestFit, DefaultBlocks(), DefaultRequests(), p, r)
    ensures p == [3, 1, 2, 4]
    ensures r.successfulAllocations == 4 && r.totalFragmentation == 433
  {
    BestFitChoices();
    DefaultPlacement(BestFit, p, r, 3, 1, 2, 4);
    Totals5(p, r.blocks);
    DefaultFragment(BestFit, p, r, 0);
    DefaultFragment(BestFit, p, r, 1);
    DefaultFragment(BestFit, p, r, 2);
    DefaultFragment(BestFit, p, r, 3);
    DefaultFragment(BestFit, p, r, 4);
  }

  /** Worst fit places P1 in block 5, P2 in block 2 and P3 in block 4, and
      finds no block for P4: 3 allocations, 388 + 83 + 188 = 659 units of
      fragmentation. */
  lemma WorstFitDefault(p: seq<int>, r: Allocation)
    requires Outcome(WorstFit, DefaultBlocks(), DefaultRequests(), p, r)
    ensures p == [4, 1, 3, -1]
    ensures r.successfulAllocations == 3 && r.totalFragmentation == 659
  {
    WorstFitChoices();
    DefaultPlacement(WorstFit, p, r, 4, 1, 3, -1);
    Totals5(p, r.blocks);
    DefaultFragment(WorstFit, p, r, 0);
    DefaultFragment(WorstFit, p, r, 1);
    DefaultFragment(WorstFit, p, r, 2);
    DefaultFragment(WorstFit, p, r, 3);
    DefaultFragment(WorstFit, p, r, 4);
  }
}
