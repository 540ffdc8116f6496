/**
 * FIFO page replacement on the classic reference string
 * 7 0 1 2 0 3 0 4 2 3 0 3 2 1 2 0 1 7 0 1 with three frames: the run makes
 * 15 page faults and 5 hits. The trace is followed one reference at a time;
 * `AfterK` gives the frames the K-th reference leaves behind.
 */
module PageReplacementExample {
  import opened Common
  import opened PageReplacement

  function Classic(): seq<int> {
    [7, 0, 1, 2, 0, 3, 0, 4, 2, 3, 0, 3, 2, 1, 2, 0, 1, 7, 0, 1]
  }

  /** A frame holding `page` since reference `t`, with no hit marked. */
  function Holding(page: int, t: int): Frame { Frame(Some(page), t, false) }

  /** The frames after a miss on `page` at reference `m` evicts frame `v`. */
  function Replaced(a: Frame, b: Frame, c: Frame, v: nat, page: int, m: nat): seq<Frame> {
    if v == 0 then [Holding(page, m), b, c] else if v == 1 then [a, Holding(page, m), c] else [a, b, Holding(page, m)]
  }

  /** A miss on three frames: the reference's page is in none of them, and
      `v` is the first frame with the smallest lastUsed. */
  lemma MissStep(refs: seq<int>, m: nat, a: Frame, b: Frame, c: Frame, v: nat)
    requires m < |refs|
    requires a.page != Some(refs[m]) && b.page != Some(refs[m]) && c.page != Some(refs[m])
    requires !a.isHit && !b.isHit && !c.isHit
    requires v == 0 ==> a.lastUsed <= b.lastUsed && a.lastUsed <= c.lastUsed
    requires v == 1 ==> b.lastUsed < a.lastUsed && b.lastUsed <= c.lastUsed
    requires v == 2 ==> c.lastUsed < a.lastUsed && c.lastUsed < b.lastUsed
    requires v < 3
    ensures Step(Fifo, refs, m, [a, b, c]) == Replaced(a, b, c, v, refs[m], m)
    ensures !HasHit(Replaced(a, b, c, v, refs[m], m))
    ensures Cleared(Replaced(a, b, c, v, refs[m], m)) == Replaced(a, b, c, v, refs[m], m)
  {
    var before := [a, b, c];
    assert before[0] == a && before[1] == b && before[2] == c;
    assert Some(refs[m]) !in Pages(before);
    var w := Victim(Fifo, refs, m, before);
    assert w == v by {
      assert before[w].lastUsed <= before[v].lastUsed;
    }
    var after := Replaced(a, b, c, v, refs[m], m);
    assert forall j :: 0 <= j < 3 ==> !after[j].isHit;
  }

  /** A hit on three frames: `k` is the first frame holding the page. */
  lemma HitStep(refs: seq<int>, m: nat, a: Frame, b: Frame, c: Frame, k: nat)
    requires m < |refs|
    requires !a.isHit && !b.isHit && !c.isHit
    requires k == 0 ==> a.page == Some(refs[m])
    requires k == 1 ==> a.page != Some(refs[m]) && b.page == Some(refs[m])
    requires k == 2 ==> a.page != Some(refs[m]) && b.page != Some(refs[m]) && c.page == Some(refs[m])
    requires k < 3
    ensures HasHit(Step(Fifo, refs, m, [a, b, c]))
    ensures Cleared(Step(Fifo, refs, m, [a, b, c])) == [a, b, c]
  {
    var before := [a, b, c];
    assert before[0] == a && before[1] == b && before[2] == c;
    var ps := Pages(before);
    assert ps[0] == a.page && ps[1] == b.page && ps[2] == c.page;
    assert ps[k] == Some(refs[m]);
    var r := FirstIndex(ps, Some(refs[m]));
    assert r == k by {
      assert Some(refs[m]) in ps;
    }
    var next := Step(Fifo, refs, m, before);
    assert next == before[k := before[k].(isHit := true)];
    assert next[k].isHit;
  }

  /** One FIFO miss, as a step of the trace. */
  lemma Missed(refs: seq<int>, m: nat, a: Frame, b: Frame, c: Frame, hits: nat, v: nat)
    requires m < |refs|
    requires Before(Trace(Fifo, refs, 3, m), 3) == [a, b, c] && HitCount(Trace(Fifo, refs, 3, m)) == hits
    requires a.page != Some(refs[m]) && b.page != Some(refs[m]) && c.page != Some(refs[m])
    requires !a.isHit && !b.isHit && !c.isHit
    requires v == 0 ==> a.lastUsed <= b.lastUsed && a.lastUsed <= c.lastUsed
    requires v == 1 ==> b.lastUsed < a.lastUsed && b.lastUsed <= c.lastUsed
    requires v == 2 ==> c.lastUsed < a.lastUsed && c.lastUsed < b.lastUsed
    requires v < 3
    ensures Before(Trace(Fifo, refs, 3, m + 1), 3) == Replaced(a, b, c, v, refs[m], m)
    ensures HitCount(Trace(Fifo, refs, 3, m + 1)) == hits
  {
    MissStep(refs, m, a, b, c, v);
    TraceNext(Fifo, refs, 3, m, Step(Fifo, refs, m, [a, b, c]));
  }

  /** One FIFO hit, as a step of the trace. */
  lemma Hit(refs: seq<int>, m: nat, a: Frame, b: Frame, c: Frame, hits: nat, k: nat)
    requires m < |refs|
    requires Before(Trace(Fifo, refs, 3, m), 3) == [a, b, c] && HitCount(Trace(Fifo, refs, 3, m)) == hits
    requires !a.isHit && !b.isHit && !c.isHit
    requires k == 0 ==> a.page == Some(refs[m])
    requires k == 1 ==> a.page != Some(refs[m]) && b.page == Some(refs[m])
    requires k == 2 ==> a.page != Some(refs[m]) && b.page != Some(refs[m]) && c.page == Some(refs[m])
    requires k < 3
    ensures Before(Trace(Fifo, refs, 3, m + 1), 3) == [a, b, c]
    ensures HitCount(Trace(Fifo, refs, 3, m + 1)) == hits + 1
  {
    HitStep(refs, m, a, b, c, k);
    TraceNext(Fifo, refs, 3, m, Step(Fifo, refs, m, [a, b, c]));
  }

  lemma After1(refs: seq<int>)
    requires refs == Classic()
    ensures Before(Trace(Fifo, refs, 3, 1), 3) == [Holding(7, 0), Unused, Unused]
    ensures HitCount(Trace(Fifo, refs, 3, 1)) == 0
  {
    assert refs[0] == 7;
    assert Before(Trace(Fifo, refs, 3, 0), 3) == [Unused, Unused, Unused];
    Missed(refs, 0, Unused, Unused, Unused, 0, 0);
  }

  lemma After2(refs: seq<int>)
    requires refs == Classic()
    ensures Before(Trace(Fifo, refs, 3, 2), 3) == [Holding(7, 0), Holding(0, 1), Unused]
    ensures HitCount(Trace(Fifo, refs, 3, 2)) == 0
  {
    assert refs[1] == 0;
    After1(refs);
    Missed(refs, 1, Holding(7, 0), Unused, Unused, 0, 1);
  }

  lemma After3(refs: seq<int>)
    requires refs == Classic()
    ensures Before(Trace(Fifo, refs, 3, 3), 3) == [Holding(7, 0), Holding(0, 1), Holding(1, 2)]
    ensures HitCount(Trace(Fifo, refs, 3, 3)) == 0
  {
    assert refs[2] == 1;
    After2(refs);
    Missed(refs, 2, Holding(7, 0), Holding(0, 1), Unused, 0, 2);
  }

  lemma After4(refs: seq<int>)
    requires refs == Classic()
    ensures Before(Trace(Fifo, refs, 3, 4), 3) == [Holding(2, 3), Holding(0, 1), Holding(1, 2)]
    ensures HitCount(Trace(Fifo, refs, 3, 4)) == 0
  {
    assert refs[3] == 2;
    After3(refs);
    Missed(refs, 3, Holding(7, 0), Holding(0, 1), Holding(1, 2), 0, 0);
  }

  lemma After5(refs: seq<int>)
    requires refs == Classic()
    ensures Before(Trace(Fifo, refs, 3, 5), 3) == [Holding(2, 3), Holding(0, 1), Holding(1, 2)]
    ensures HitCount(Trace(Fifo, refs, 3, 5)) == 1
  {
    assert refs[4] == 0;
    After4(refs);
    Hit(refs, 4, Holding(2, 3), Holding(0, 1), Holding(1, 2), 0, 1);
  }

  lemma After6(refs: seq<int>)
    requires refs == Classic()
    ensures Before(Trace(Fifo, refs, 3, 6), 3) == [Holding(2, 3), Holding(3, 5), Holding(1, 2)]
    ensures HitCount(Trace(Fifo, refs, 3, 6)) == 1
  {
    assert refs[5] == 3;
    After5(refs);
    Missed(refs, 5, Holding(2, 3), Holding(0, 1), Holding(1, 2), 1, 1);
  }

  lemma After7(refs: seq<int>)
    requires refs == Classic()
    ensures Before(Trace(Fifo, refs, 3, 7), 3) == [Holding(2, 3), Holding(3, 5), Holding(0, 6)]
    ensures HitCount(Trace(Fifo, refs, 3, 7)) == 1
  {
    assert refs[6] == 0;
    After6(refs);
    Missed(refs, 6, Holding(2, 3), Holding(3, 5), Holding(1, 2), 1, 2);
  }

  lemma After8(refs: seq<int>)
    requires refs == Classic()
    ensures Before(Trace(Fifo, refs, 3, 8), 3) == [Holding(4, 7), Holding(3, 5), Holding(0, 6)]
    ensures HitCount(Trace(Fifo, refs, 3, 8)) == 1
  {
    assert refs[7] == 4;
    After7(refs);
    Missed(refs, 7, Holding(2, 3), Holding(3, 5), Holding(0, 6), 1, 0);
  }

  lemma After9(refs: seq<int>)
    requires refs == Classic()
    ensures Before(Trace(Fifo, refs, 3, 9), 3) == [Holding(4, 7), Holding(2, 8), Holding(0, 6)]
    ensures HitCount(Trace(Fifo, refs, 3, 9)) == 1
  {
    assert refs[8] == 2;
    After8(refs);
    Missed(refs, 8, Holding(4, 7), Holding(3, 5), Holding(0, 6), 1, 1);
  }

  lemma After10(refs: seq<int>)
    requires refs == Classic()
    ensures Before(Trace(Fifo, refs, 3, 10), 3) == [Holding(4, 7), Holding(2, 8), Holding(3, 9)]
    ensures HitCount(Trace(Fifo, refs, 3, 10)) == 1
  {
    assert refs[9] == 3;
    After9(refs);
    Missed(refs, 9, Holding(4, 7), Holding(2, 8), Holding(0, 6), 1, 2);
  }

  lemma After11(refs: seq<int>)
    requires refs == Classic()
    ensures Before(Trace(Fifo, refs, 3, 11), 3) == [Holding(0, 10), Holding(2, 8), Holding(3, 9)]
    ensures HitCount(Trace(Fifo, refs, 3, 11)) == 1
  {
    assert refs[10] == 0;
    After10(refs);
    Missed(refs, 10, Holding(4, 7), Holding(2, 8), Holding(3, 9), 1, 0);
  }

  lemma After12(refs: seq<int>)
    requires refs == Classic()
    ensures Before(Trace(Fifo, refs, 3, 12), 3) == [Holding(0, 10), Holding(2, 8), Holding(3, 9)]
    ensures HitCount(Trace(Fifo, refs, 3, 12)) == 2
  {
    assert refs[11] == 3;
    After11(refs);
    Hit(refs, 11, Holding(0, 10), Holding(2, 8), Holding(3, 9), 1, 2);
  }

  lemma After13(refs: seq<int>)
    requires refs == Classic()
    ensures Before(Trace(Fifo, refs, 3, 13), 3) == [Holding(0, 10), Holding(2, 8), Holding(3, 9)]
    ensures HitCount(Trace(Fifo, refs, 3, 13)) == 3
  {
    assert refs[12] == 2;
    After12(refs);
    Hit(refs, 12, Holding(0, 10), Holding(2, 8), Holding(3, 9), 2, 1);
  }

  lemma After14(refs: seq<int>)
    requires refs == Classic()
    ensures Before(Trace(Fifo, refs, 3, 14), 3) == [Holding(0, 10), Holding(1, 13), Holding(3, 9)]
    ensures HitCount(Trace(Fifo, refs, 3, 14)) == 3
  {
    assert refs[13] == 1;
    After13(refs);
    Missed(refs, 13, Holding(0, 10), Holding(2, 8), Holding(3, 9), 3, 1);
  }

  lemma After15(refs: seq<int>)
    requires refs == Classic()
    ensures Before(Trace(Fifo, refs, 3, 15), 3) == [Holding(0, 10), Holding(1, 13), Holding(2, 14)]
    ensures HitCount(Trace(Fifo, refs, 3, 15)) == 3
  {
    assert refs[14] == 2;
    After14(refs);
    Missed(refs, 14, Holding(0, 10), Holding(1, 13), Holding(3, 9), 3, 2);
  }

  lemma After16(refs: seq<int>)
    requires refs == Classic()
    ensures Before(Trace(Fifo, refs, 3, 16), 3) == [Holding(0, 10), Holding(1, 13), Holding(2, 14)]
    ensures HitCount(Trace(Fifo, refs, 3, 16)) == 4
  {
    assert refs[15] == 0;
    After15(refs);
    Hit(refs, 15, Holding(0, 10), Holding(1, 13), Holding(2, 14), 3, 0);
  }

  lemma After17(refs: seq<int>)
    requires refs == Classic()
    ensures Before(Trace(Fifo, refs, 3, 17), 3) == [Holding(0, 10), Holding(1, 13), Holding(2, 14)]
    ensures HitCount(Trace(Fifo, refs, 3, 17)) == 5
  {
    assert refs[16] == 1;
    After16(refs);
    Hit(refs, 16, Holding(0, 10), Holding(1, 13), Holding(2, 14), 4, 1);
  }

  lemma After18(refs: seq<int>)
    requires refs == Classic()
    ensures Before(Trace(Fifo, refs, 3, 18), 3) == [Holding(7, 17), Holding(1, 13), Holding(2, 14)]
    ensures HitCount(Trace(Fifo, refs, 3, 18)) == 5
  {
    assert refs[17] == 7;
    After17(refs);
    Missed(refs, 17, Holding(0, 10), Holding(1, 13), Holding(2, 14), 5, 0);
  }

  lemma After19(refs: seq<int>)
    requires refs == Classic()
    ensures Before(Trace(Fifo, refs, 3, 19), 3) == [Holding(7, 17), Holding(0, 18), Holding(2, 14)]
    ensures HitCount(Trace(Fifo, refs, 3, 19)) == 5
  {
    assert refs[18] == 0;
    After18(refs);
    Missed(refs, 18, Holding(7, 17), Holding(1, 13), Holding(2, 14), 5, 1);
  }

  lemma After20(refs: seq<int>)
    requires refs == Classic()
    ensures Before(Trace(Fifo, refs, 3, 20), 3) == [Holding(7, 17), Holding(0, 18), Holding(1, 19)]
    ensures HitCount(Trace(Fifo, refs, 3, 20)) == 5
  {
    assert refs[19] == 1;
    After19(refs);
    Missed(refs, 19, Holding(7, 17), Holding(0, 18), Holding(2, 14), 5, 2);
  }

  /** What `FifoReplace(Classic(), 3)` reports: 5 hits and 15 page faults. */
  lemma ClassicFifo(snapshots: seq<seq<Frame>>, hits: nat, misses: nat)
    requires snapshots == Trace(Fifo, Classic(), 3, |Classic()|)
    requires hits == HitCount(snapshots) && hits + misses == |Classic()|
    ensures hits == 5 && misses == 15
  {
    After20(Classic());
  }
}
