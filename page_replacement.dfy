/**
 * Page replacement: FIFO, LRU, Optimal and Clock over a fixed number of
 * frames. Each algorithm walks the reference string once, updates its frames
 * in place and records a copy of them after every reference, marking the
 * frame that was hit; the mark is cleared before the next reference.
 *
 * Each method is proved equal to a trace function (`Trace`, `ClockTrace`)
 * built from one-reference step functions; the lemmas state what the steps
 * promise: no page is in two frames, the referenced page is resident
 * afterwards, a hit moves no page, and which frame a miss evicts.
 */
module PageReplacement {
  import opened Common

  /** One page frame as a snapshot shows it; an unused frame has no page and lastUsed -1. */
  datatype Frame = Frame(page: Option<int>, lastUsed: int, isHit: bool)

  datatype Policy = Fifo | Lru | Optimal

  const Unused: Frame := Frame(None, -1, false)

  function Pages(fs: seq<Frame>): (ps: seq<Option<int>>)
    ensures |ps| == |fs|
  {
    seq(|fs|, k requires 0 <= k < |fs| => fs[k].page)
  }

  /** The frames with every hit mark cleared, as they stand when the next reference arrives. */
  function Cleared(fs: seq<Frame>): (r: seq<Frame>)
    ensures |r| == |fs|
  {
    seq(|fs|, k requires 0 <= k < |fs| => fs[k].(isHit := false))
  }

  predicate HasHit(fs: seq<Frame>) {
    exists k :: 0 <= k < |fs| && fs[k].isHit
  }

  /** `findIndex`: the first position holding `x`, or -1 when there is none. */
  function FirstIndex<T(==)>(s: seq<T>, x: T): (k: int)
    ensures -1 <= k < |s|
    ensures 0 <= k ==> s[k] == x && forall j :: 0 <= j < k ==> s[j] != x
    ensures k == -1 <==> x !in s
  {
    if s == [] then -1
    else
      var r := FirstIndex(s[..|s| - 1], x);
      assert s == s[..|s| - 1] + [s[|s| - 1]];
      if r != -1 then r else if s[|s| - 1] == x then |s| - 1 else -1
  }

  method FindFirst<T(==)>(s: seq<T>, x: T) returns (k: int)
    ensures k == FirstIndex(s, x)
  {
    for j := 0 to |s|
      invariant forall i :: 0 <= i < j ==> s[i] != x
    {
      if s[j] == x {
        return j;
      }
    }
    return -1;
  }

  /**
   * The frame a `reduce` with a strict `<` settles on: the first frame with
   * the smallest lastUsed.
   */
  function Oldest(fs: seq<Frame>): (v: nat)
    requires 0 < |fs|
    ensures v < |fs|
    ensures forall j :: 0 <= j < |fs| ==> fs[v].lastUsed <= fs[j].lastUsed
    ensures forall j :: 0 <= j < v ==> fs[v].lastUsed < fs[j].lastUsed
  {
    if |fs| == 1 then 0
    else
      var o := Oldest(fs[..|fs| - 1]);
      if fs[|fs| - 1].lastUsed < fs[o].lastUsed then |fs| - 1 else o
  }

  method OldestFrame(frames: array<Frame>) returns (v: nat)
    requires 0 < frames.Length
    ensures v == Oldest(frames[..])
  {
    v := 0;
    for k := 1 to frames.Length
      invariant v < k
      invariant forall j :: 0 <= j < k ==> frames[v].lastUsed <= frames[j].lastUsed
      invariant forall j :: 0 <= j < v ==> frames[v].lastUsed < frames[j].lastUsed
    {
      if frames[k].lastUsed < frames[v].lastUsed {
        v := k;
      }
    }
  }

  /** When a page is referenced next: at a position of the reference string, or never (+infinity). */
  datatype Distance = At(index: int) | Never

  /** `a` lies strictly further in the future than `b`. */
  predicate Later(a: Distance, b: Distance) {
    match a
    case Never => b.At?
    case At(x) => b.At? && x > b.index
  }

  function Lifted(s: seq<int>): (r: seq<Option<int>>)
    ensures |r| == |s|
  {
    seq(|s|, k requires 0 <= k < |s| => Some(s[k]))
  }

  /** The next use of `page` after position `i`: the first later position referencing it. */
  function NextUse(refs: seq<int>, i: nat, page: Option<int>): (d: Distance)
    requires i < |refs|
    ensures d.At? ==> i < d.index < |refs| && page == Some(refs[d.index])
    ensures d.At? ==> forall m :: i < m < d.index ==> page != Some(refs[m])
    ensures d == Never <==> forall m :: i < m < |refs| ==> page != Some(refs[m])
  {
    var later := Lifted(refs[i + 1..]);
    var r := FirstIndex(later, page);
    assert forall m :: i < m < |refs| ==> later[m - i - 1] == Some(refs[m]);
    if r == -1 then Never else At(i + 1 + r)
  }

  function Futures(fs: seq<Frame>, refs: seq<int>, i: nat): (ds: seq<Distance>)
    requires i < |refs|
    ensures |ds| == |fs|
  {
    seq(|fs|, k requires 0 <= k < |fs| => NextUse(refs, i, fs[k].page))
  }

  /** `indexOf(Math.max(...))`: the first position holding the furthest distance. */
  function FirstMax(ds: seq<Distance>): (v: nat)
    requires 0 < |ds|
    ensures v < |ds|
    ensures forall j :: 0 <= j < |ds| ==> !Later(ds[j], ds[v])
    ensures forall j :: 0 <= j < v ==> Later(ds[v], ds[j])
  {
    if |ds| == 1 then 0
    else
      var o := FirstMax(ds[..|ds| - 1]);
      if Later(ds[|ds| - 1], ds[o]) then |ds| - 1 else o
  }

  method NextUseOf(refs: seq<int>, i: nat, page: Option<int>) returns (d: Distance)
    requires i < |refs|
    ensures d == NextUse(refs, i, page)
  {
    var r := FindFirst(Lifted(refs[i + 1..]), page);
    d := if r == -1 then Never else At(i + 1 + r);
  }

  method FarthestFrame(frames: array<Frame>, refs: seq<int>, i: nat) returns (v: nat)
    requires 0 < frames.Length && i < |refs|
    ensures v == FirstMax(Futures(frames[..], refs, i))
  {
    var futures := [];
    for k := 0 to frames.Length
      invariant |futures| == k
      invariant forall j :: 0 <= j < k ==> futures[j] == NextUse(refs, i, frames[j].page)
    {
      var d := NextUseOf(refs, i, frames[k].page);
      futures := futures + [d];
    }
    assert futures == Futures(frames[..], refs, i);
    v := 0;
    for k := 1 to |futures|
      invariant v < k
      invariant forall j :: 0 <= j < k ==> !Later(futures[j], futures[v])
      invariant forall j :: 0 <= j < v ==> Later(futures[v], futures[j])
    {
      if Later(futures[k], futures[v]) {
        v := k;
      }
    }
  }

  /** The frame a miss overwrites. */
  function Victim(policy: Policy, refs: seq<int>, i: nat, prev: seq<Frame>): (v: nat)
    requires 0 < |prev| && i < |refs|
    ensures v < |prev|
    ensures policy != Optimal ==>
      forall j :: 0 <= j < |prev| ==>
        prev[v].lastUsed <= prev[j].lastUsed && (j < v ==> prev[v].lastUsed < prev[j].lastUsed)
    ensures policy == Optimal && None in Pages(prev) ==>
      prev[v].page == None && forall j :: 0 <= j < v ==> prev[j].page != None
    ensures policy == Optimal && None !in Pages(prev) ==>
      forall j :: 0 <= j < |prev| ==>
        !Later(NextUse(refs, i, prev[j].page), NextUse(refs, i, prev[v].page))
        && (j < v ==> Later(NextUse(refs, i, prev[v].page), NextUse(refs, i, prev[j].page)))
  {
    match policy
    case Fifo => Oldest(prev)
    case Lru => Oldest(prev)
    case Optimal =>
      var e := FirstIndex(Pages(prev), None);
      assert forall j :: 0 <= j < |prev| ==> Pages(prev)[j] == prev[j].page;
      if e != -1 then e
      else
        var v := FirstMax(Futures(prev, refs, i));
        assert forall j :: 0 <= j < |prev| ==> Futures(prev, refs, i)[j] == NextUse(refs, i, prev[j].page);
        v
  }

  /** What one reference does to the frames. */
  function Step(policy: Policy, refs: seq<int>, i: nat, prev: seq<Frame>): (next: seq<Frame>)
    requires 0 < |prev| && i < |refs|
    ensures |next| == |prev|
  {
    var k := FirstIndex(Pages(prev), Some(refs[i]));
    if k != -1 then
      prev[k := prev[k].(isHit := true, lastUsed := if policy == Lru then i else prev[k].lastUsed)]
    else
      prev[Victim(policy, refs, i, prev) := Frame(Some(refs[i]), i, false)]
  }

  /** The frames before the next reference, given the snapshots so far. */
  function Before(t: seq<seq<Frame>>, n: nat): (fs: seq<Frame>)
    ensures t == [] ==> |fs| == n
    ensures t != [] ==> |fs| == |t[|t| - 1]|
  {
    if t == [] then seq(n, _ => Unused) else Cleared(t[|t| - 1])
  }

  /** The snapshots after the first `m` references. */
  function Trace(policy: Policy, refs: seq<int>, n: nat, m: nat): (t: seq<seq<Frame>>)
    requires 0 < n && m <= |refs|
    ensures |t| == m
    ensures forall j :: 0 <= j < m ==> |t[j]| == n
  {
    if m == 0 then []
    else
      var t := Trace(policy, refs, n, m - 1);
      t + [Step(policy, refs, m - 1, Before(t, n))]
  }

  /** The number of snapshots that record a hit. */
  function HitCount(t: seq<seq<Frame>>): (c: nat)
    ensures c <= |t|
  {
    if t == [] then 0 else HitCount(t[..|t| - 1]) + (if HasHit(t[|t| - 1]) then 1 else 0)
  }

  /**
   * No page sits in two frames; an unused frame keeps lastUsed -1 and a used
   * one holds the position of a reference before `now`.
   */
  ghost predicate Wf(fs: seq<Frame>, now: int) {
    (forall a, b :: 0 <= a < b < |fs| && fs[a].page.Some? ==> fs[a].page != fs[b].page)
    && forall k :: 0 <= k < |fs| ==>
         if fs[k].page == None then fs[k].lastUsed == -1 else 0 <= fs[k].lastUsed < now
  }

  /** A step records a hit exactly when the referenced page was already resident. */
  lemma StepHit(policy: Policy, refs: seq<int>, i: nat, prev: seq<Frame>)
    requires 0 < |prev| && i < |refs|
    requires forall k :: 0 <= k < |prev| ==> !prev[k].isHit
    ensures HasHit(Step(policy, refs, i, prev)) <==> Some(refs[i]) in Pages(prev)
  {
    var next := Step(policy, refs, i, prev);
    var k := FirstIndex(Pages(prev), Some(refs[i]));
    if k != -1 {
      assert next[k].isHit;
    } else {
      var v := Victim(policy, refs, i, prev);
      assert forall j :: 0 <= j < |next| ==> next[j] == (if j == v then Frame(Some(refs[i]), i, false) else prev[j]);
    }
  }

  /**
   * One step keeps the frames well formed, leaves the referenced page
   * resident, moves no page on a hit, and on a miss overwrites the victim
   * alone with the referenced page.
   */
  lemma StepKeeps(policy: Policy, refs: seq<int>, i: nat, prev: seq<Frame>)
    requires 0 < |prev| && i < |refs| && Wf(prev, i)
    ensures Wf(Step(policy, refs, i, prev), i + 1)
    ensures Some(refs[i]) in Pages(Step(policy, refs, i, prev))
    ensures Some(refs[i]) in Pages(prev) ==> Pages(Step(policy, refs, i, prev)) == Pages(prev)
    ensures Some(refs[i]) !in Pages(prev) ==>
      var v := Victim(policy, refs, i, prev);
      var next := Step(policy, refs, i, prev);
      next[v] == Frame(Some(refs[i]), i, false)
      && forall j :: 0 <= j < |prev| && j != v ==> next[j] == prev[j]
  {
    var next := Step(policy, refs, i, prev);
    var k := FirstIndex(Pages(prev), Some(refs[i]));
    if k != -1 {
      assert Pages(next) == Pages(prev);
      assert Pages(next)[k] == Some(refs[i]);
    } else {
      var v := Victim(policy, refs, i, prev);
      assert forall j :: 0 <= j < |prev| ==> Pages(prev)[j] == prev[j].page;
      assert Pages(next)[v] == Some(refs[i]);
    }
  }

  lemma ClearedKeeps(fs: seq<Frame>, now: int)
    requires Wf(fs, now)
    ensures Wf(Cleared(fs), now)
    ensures Pages(Cleared(fs)) == Pages(fs)
    ensures forall k :: 0 <= k < |fs| ==> !Cleared(fs)[k].isHit
  {
    assert forall k :: 0 <= k < |fs| ==> Cleared(fs)[k].page == fs[k].page;
  }

  /** Every snapshot is well formed and holds the page its reference asked for. */
  ghost predicate Sound(t: seq<seq<Frame>>, refs: seq<int>) {
    |t| <= |refs|
    && forall j :: 0 <= j < |t| ==> Wf(t[j], j + 1) && Some(refs[j]) in Pages(t[j])
  }

  lemma SoundAppend(t: seq<seq<Frame>>, refs: seq<int>, next: seq<Frame>)
    requires Sound(t, refs) && |t| < |refs|
    requires Wf(next, |t| + 1) && Some(refs[|t|]) in Pages(next)
    ensures Sound(t + [next], refs)
  {
  }

  /** Appending one step to a trace gives the next trace and counts its hit. */
  lemma TraceNext(policy: Policy, refs: seq<int>, n: nat, m: nat, next: seq<Frame>)
    requires 0 < n && m < |refs|
    requires next == Step(policy, refs, m, Before(Trace(policy, refs, n, m), n))
    ensures Trace(policy, refs, n, m) + [next] == Trace(policy, refs, n, m + 1)
    ensures HitCount(Trace(policy, refs, n, m + 1)) == HitCount(Trace(policy, refs, n, m)) + (if HasHit(next) then 1 else 0)
  {
    var t := Trace(policy, refs, n, m) + [next];
    assert t[..|t| - 1] == Trace(policy, refs, n, m);
  }

  /**
   * No page is ever in two frames, and every snapshot holds the page its
   * reference asked for.
   */
  lemma {:induction false} TraceWf(policy: Policy, refs: seq<int>, n: nat, m: nat)
    requires 0 < n && m <= |refs|
    ensures Sound(Trace(policy, refs, n, m), refs)
    ensures Wf(Before(Trace(policy, refs, n, m), n), m)
  {
    if m > 0 {
      var t := Trace(policy, refs, n, m - 1);
      TraceWf(policy, refs, n, m - 1);
      var next := Step(policy, refs, m - 1, Before(t, n));
      StepKeeps(policy, refs, m - 1, Before(t, n));
      TraceNext(policy, refs, n, m - 1, next);
      SoundAppend(t, refs, next);
      ClearedKeeps(next, m);
    }
  }

  /**
   * FIFO and LRU never look for an unused frame, yet they fill one first:
   * the reduce picks the first unused frame, whose lastUsed -1 is below every
   * used frame's.
   */
  lemma UnusedFramesFillFirst(policy: Policy, refs: seq<int>, i: nat, prev: seq<Frame>)
    requires policy != Optimal && 0 < |prev| && i < |refs| && Wf(prev, i)
    requires None in Pages(prev)
    ensures Victim(policy, refs, i, prev) == FirstIndex(Pages(prev), None)
  {
    var e := FirstIndex(Pages(prev), None);
    var v := Victim(policy, refs, i, prev);
    assert forall j :: 0 <= j < |prev| ==> Pages(prev)[j] == prev[j].page;
    assert prev[e].page == None;
    assert prev[v].lastUsed <= prev[e].lastUsed;
    assert prev[v].page == None;
  }

  /** Processes reference `i`: marks the hit, or overwrites the victim on a miss. */
  method Reference(policy: Policy, frames: array<Frame>, refs: seq<int>, i: nat) returns (hit: bool)
    requires 0 < frames.Length && i < |refs|
    modifies frames
    ensures frames[..] == Step(policy, refs, i, old(frames[..]))
    ensures hit <==> Some(refs[i]) in Pages(old(frames[..]))
  {
    ghost var prev := frames[..];
    var k := FindFirst(Pages(frames[..]), Some(refs[i]));
    hit := k != -1;
    if hit {
      if policy == Lru {
        frames[k] := frames[k].(lastUsed := i);
      }
      frames[k] := frames[k].(isHit := true);
    } else {
      var v: int;
      match policy {
        case Fifo =>
          v := OldestFrame(frames);
        case Lru =>
          v := OldestFrame(frames);
        case Optimal =>
          v := FindFirst(Pages(frames[..]), None);
          if v == -1 {
            v := FarthestFrame(frames, refs, i);
          }
      }
      frames[v] := Frame(Some(refs[i]), i, false);
    }
  }

  /** The state of a replay after `i` references: snapshots, current frames and counts. */
  ghost predicate Replaying(policy: Policy, refs: seq<int>, n: nat, i: nat, frames: seq<Frame>, snapshots: seq<seq<Frame>>, hits: nat, misses: nat)
    requires 0 < n && i <= |refs|
  {
    && snapshots == Trace(policy, refs, n, i)
    && frames == Before(snapshots, n)
    && (forall k :: 0 <= k < |frames| ==> !frames[k].isHit)
    && hits == HitCount(snapshots) && hits + misses == i
  }

  /** Processes reference `i`, records the snapshot and clears the hit mark. */
  method Advance(policy: Policy, frames: array<Frame>, refs: seq<int>, i: nat, snapshots: seq<seq<Frame>>, hits: nat, misses: nat)
    returns (snapshots': seq<seq<Frame>>, hits': nat, misses': nat)
    requires 0 < frames.Length && i < |refs|
    requires Replaying(policy, refs, frames.Length, i, frames[..], snapshots, hits, misses)
    modifies frames
    ensures Replaying(policy, refs, frames.Length, i + 1, frames[..], snapshots', hits', misses')
  {
    ghost var prev := frames[..];
    var hit := Reference(policy, frames, refs, i);
    if hit {
      hits', misses' := hits + 1, misses;
    } else {
      hits', misses' := hits, misses + 1;
    }
    StepHit(policy, refs, i, prev);
    TraceNext(policy, refs, frames.Length, i, frames[..]);
    snapshots' := snapshots + [frames[..]];
    forall k | 0 <= k < frames.Length {
      frames[k] := frames[k].(isHit := false);
    }
    assert frames[..] == Cleared(snapshots'[i]);
  }

  /** Replays the reference string under `policy`: FIFO, LRU or Optimal. */
  method Simulate(policy: Policy, refs: seq<int>, frameCount: nat) returns (snapshots: seq<seq<Frame>>, hits: nat, misses: nat)
    requires 1 <= frameCount
    ensures snapshots == Trace(policy, refs, frameCount, |refs|)
    ensures hits == HitCount(snapshots) && hits + misses == |refs|
  {
    var frames := new Frame[frameCount](_ => Unused);
    snapshots, hits, misses := [], 0, 0;
    for i := 0 to |refs|
      invariant frames.Length == frameCount
      invariant Replaying(policy, refs, frameCount, i, frames[..], snapshots, hits, misses)
    {
      snapshots, hits, misses := Advance(policy, frames, refs, i, snapshots, hits, misses);
    }
  }

  method FifoReplace(refs: seq<int>, frameCount: nat) returns (snapshots: seq<seq<Frame>>, hits: nat, misses: nat)
    requires 1 <= frameCount
    ensures snapshots == Trace(Fifo, refs, frameCount, |refs|)
    ensures hits == HitCount(snapshots) && hits + misses == |refs|
  {
    snapshots, hits, misses := Simulate(Fifo, refs, frameCount);
  }

  method LruReplace(refs: seq<int>, frameCount: nat) returns (snapshots: seq<seq<Frame>>, hits: nat, misses: nat)
    requires 1 <= frameCount
    ensures snapshots == Trace(Lru, refs, frameCount, |refs|)
    ensures hits == HitCount(snapshots) && hits + misses == |refs|
  {
    snapshots, hits, misses := Simulate(Lru, refs, frameCount);
  }

  method OptimalReplace(refs: seq<int>, frameCount: nat) returns (snapshots: seq<seq<Frame>>, hits: nat, misses: nat)
    requires 1 <= frameCount
    ensures snapshots == Trace(Optimal, refs, frameCount, |refs|)
    ensures hits == HitCount(snapshots) && hits + misses == |refs|
  {
    snapshots, hits, misses := Simulate(Optimal, refs, frameCount);
  }

  /** A Clock frame: what a snapshot shows plus the use bit the hand clears. */
  datatype ClockFrame = ClockFrame(frame: Frame, useFlag: bool)

  /** The Clock frames and the position of the hand. */
  datatype Clock = Clock(frames: seq<ClockFrame>, pointer: nat)

  /** The frames as a snapshot shows them, without the use bits. */
  function Shown(cs: seq<ClockFrame>): (fs: seq<Frame>)
    ensures |fs| == |cs|
  {
    seq(|cs|, k requires 0 <= k < |cs| => cs[k].frame)
  }

  function CountUse(cs: seq<ClockFrame>): (c: nat)
    ensures c <= |cs|
  {
    if cs == [] then 0 else CountUse(cs[..|cs| - 1]) + (if cs[|cs| - 1].useFlag then 1 else 0)
  }

  /** Clearing a set use bit lowers the count of set bits by one. */
  lemma {:induction false} CountUseClear(cs: seq<ClockFrame>, k: nat)
    requires k < |cs| && cs[k].useFlag
    ensures CountUse(cs[k := cs[k].(useFlag := false)]) == CountUse(cs) - 1
  {
    var cs' := cs[k := cs[k].(useFlag := false)];
    var last := |cs| - 1;
    if k == last {
      assert cs'[..last] == cs[..last];
    } else {
      assert cs'[..last] == cs[..last][k := cs[k].(useFlag := false)];
      CountUseClear(cs[..last], k);
    }
  }

  /** Where the hand stops, the frames it leaves behind and how many frames it looked at. */
  datatype Sweep = Sweep(frames: seq<ClockFrame>, pointer: nat, steps: nat)

  /**
   * The second-chance sweep: from the hand, every frame with its use bit set
   * loses the bit and the hand moves on; the sweep stops at the first frame
   * whose bit is clear. Each frame passed loses its bit, so the sweep looks
   * at no more than one frame per set bit plus one, never more than twice
   * the number of frames.
   */
  function SecondChance(cs: seq<ClockFrame>, ptr: nat): (h: Sweep)
    requires ptr < |cs|
    ensures |h.frames| == |cs| && h.pointer < |cs| && !h.frames[h.pointer].useFlag
    ensures Shown(h.frames) == Shown(cs)
    ensures forall k :: 0 <= k < |cs| && h.frames[k].useFlag ==> cs[k].useFlag
    ensures 1 <= h.steps <= CountUse(cs) + 1 <= 2 * |cs|
    decreases CountUse(cs)
  {
    if !cs[ptr].useFlag then Sweep(cs, ptr, 1)
    else
      var cs' := cs[ptr := cs[ptr].(useFlag := false)];
      CountUseClear(cs, ptr);
      assert Shown(cs') == Shown(cs);
      var h := SecondChance(cs', (ptr + 1) % |cs|);
      h.(steps := h.steps + 1)
  }

  /** A frame just loaded with `page` at reference `i`. */
  function Loaded(page: int, i: nat): ClockFrame {
    ClockFrame(Frame(Some(page), i, false), true)
  }

  /** A miss with no unused frame: sweep, replace the frame the hand stops at, advance the hand. */
  function Evicted(cs: seq<ClockFrame>, ptr: nat, page: int, i: nat): (c: Clock)
    requires ptr < |cs|
    ensures |c.frames| == |cs| && c.pointer < |cs|
  {
    var h := SecondChance(cs, ptr);
    Clock(h.frames[h.pointer := Loaded(page, i)], (h.pointer + 1) % |cs|)
  }

  /** What one reference does to the Clock frames and hand. */
  function ClockStep(c: Clock, refs: seq<int>, i: nat): (c': Clock)
    requires 0 < |c.frames| && c.pointer < |c.frames| && i < |refs|
    ensures |c'.frames| == |c.frames| && c'.pointer < |c'.frames|
  {
    var cs := c.frames;
    var k := FirstIndex(Pages(Shown(cs)), Some(refs[i]));
    if k != -1 then
      Clock(cs[k := ClockFrame(cs[k].frame.(isHit := true), true)], c.pointer)
    else
      var e := FirstIndex(Pages(Shown(cs)), None);
      if e != -1 then
        Clock(cs[e := Loaded(refs[i], i)], (e + 1) % |cs|)
      else
        Evicted(cs, c.pointer, refs[i], i)
  }

  function ClockCleared(c: Clock): (c': Clock)
    ensures |c'.frames| == |c.frames| && c'.pointer == c.pointer
  {
    Clock(seq(|c.frames|, k requires 0 <= k < |c.frames| => c.frames[k].(frame := c.frames[k].frame.(isHit := false))), c.pointer)
  }

  /** The Clock state before the next reference, given the states so far. */
  function ClockBefore(t: seq<Clock>, n: nat): (c: Clock)
    ensures t == [] ==> |c.frames| == n && c.pointer == 0
    ensures t != [] ==> |c.frames| == |t[|t| - 1].frames| && c.pointer == t[|t| - 1].pointer
  {
    if t == [] then Clock(seq(n, _ => ClockFrame(Unused, false)), 0) else ClockCleared(t[|t| - 1])
  }

  /** The Clock states after the first `m` references. */
  function ClockTrace(refs: seq<int>, n: nat, m: nat): (t: seq<Clock>)
    requires 0 < n && m <= |refs|
    ensures |t| == m
    ensures forall j :: 0 <= j < m ==> |t[j].frames| == n && t[j].pointer < n
  {
    if m == 0 then []
    else
      var t := ClockTrace(refs, n, m - 1);
      t + [ClockStep(ClockBefore(t, n), refs, m - 1)]
  }

  function Snapshots(t: seq<Clock>): (s: seq<seq<Frame>>)
    ensures |s| == |t|
  {
    seq(|t|, j requires 0 <= j < |t| => Shown(t[j].frames))
  }

  /**
   * One Clock step keeps the frames well formed and leaves the referenced
   * page resident; a hit moves no page and leaves the hand where it was.
   */
  lemma ClockStepKeeps(c: Clock, refs: seq<int>, i: nat)
    requires 0 < |c.frames| && c.pointer < |c.frames| && i < |refs| && Wf(Shown(c.frames), i)
    ensures Wf(Shown(ClockStep(c, refs, i).frames), i + 1)
    ensures Some(refs[i]) in Pages(Shown(ClockStep(c, refs, i).frames))
    ensures Some(refs[i]) in Pages(Shown(c.frames)) ==>
      Pages(Shown(ClockStep(c, refs, i).frames)) == Pages(Shown(c.frames))
      && ClockStep(c, refs, i).pointer == c.pointer
  {
    var cs := c.frames;
    var fs := Shown(cs);
    var k := FirstIndex(Pages(fs), Some(refs[i]));
    assert forall j :: 0 <= j < |cs| ==> Pages(fs)[j] == cs[j].frame.page;
    if k == -1 {
      var e := FirstIndex(Pages(fs), None);
      if e == -1 {
        var h := SecondChance(cs, c.pointer);
        assert Shown(h.frames)[h.pointer].page == cs[h.pointer].frame.page;
        var next := Shown(ClockStep(c, refs, i).frames);
        assert next == fs[h.pointer := Loaded(refs[i], i).frame];
        assert Pages(next)[h.pointer] == Some(refs[i]);
      } else {
        var next := Shown(ClockStep(c, refs, i).frames);
        assert next == fs[e := Loaded(refs[i], i).frame];
        assert Pages(next)[e] == Some(refs[i]);
      }
    } else {
      var next := Shown(ClockStep(c, refs, i).frames);
      assert next == fs[k := fs[k].(isHit := true)];
      assert Pages(next) == Pages(fs);
      assert Pages(next)[k] == Some(refs[i]);
    }
  }

  /** A Clock step records a hit exactly when the referenced page was already resident. */
  lemma ClockStepHit(c: Clock, refs: seq<int>, i: nat)
    requires 0 < |c.frames| && c.pointer < |c.frames| && i < |refs|
    requires forall k :: 0 <= k < |c.frames| ==> !c.frames[k].frame.isHit
    ensures HasHit(Shown(ClockStep(c, refs, i).frames)) <==> Some(refs[i]) in Pages(Shown(c.frames))
  {
    var cs := c.frames;
    var next := Shown(ClockStep(c, refs, i).frames);
    var k := FirstIndex(Pages(Shown(cs)), Some(refs[i]));
    if k != -1 {
      assert next[k].isHit;
    } else if FirstIndex(Pages(Shown(cs)), None) == -1 {
      var h := SecondChance(cs, c.pointer);
      assert forall j :: 0 <= j < |cs| ==> Shown(h.frames)[j] == cs[j].frame;
    }
  }

  lemma ClockClearedKeeps(c: Clock, now: int)
    requires Wf(Shown(c.frames), now)
    ensures Wf(Shown(ClockCleared(c).frames), now)
    ensures forall k :: 0 <= k < |c.frames| ==> !ClockCleared(c).frames[k].frame.isHit
  {
    assert forall k :: 0 <= k < |c.frames| ==> Shown(ClockCleared(c).frames)[k] == Shown(c.frames)[k].(isHit := false);
  }

  /** Appending one Clock step gives the next trace and counts its hit. */
  lemma ClockTraceNext(refs: seq<int>, n: nat, m: nat, next: Clock)
    requires 0 < n && m < |refs|
    requires next == ClockStep(ClockBefore(ClockTrace(refs, n, m), n), refs, m)
    ensures ClockTrace(refs, n, m) + [next] == ClockTrace(refs, n, m + 1)
    ensures Snapshots(ClockTrace(refs, n, m + 1)) == Snapshots(ClockTrace(refs, n, m)) + [Shown(next.frames)]
    ensures HitCount(Snapshots(ClockTrace(refs, n, m + 1)))
      == HitCount(Snapshots(ClockTrace(refs, n, m))) + (if HasHit(Shown(next.frames)) then 1 else 0)
  {
    var t := ClockTrace(refs, n, m);
    var t' := ClockTrace(refs, n, m + 1);
    assert t' == t + [next];
    var s := Snapshots(t');
    assert forall j :: 0 <= j < m ==> s[j] == Shown(t[j].frames);
    assert s[..m] == Snapshots(t);
  }

  /**
   * Under Clock too no page is ever in two frames, and every snapshot holds
   * the page its reference asked for.
   */
  lemma {:induction false} ClockTraceWf(refs: seq<int>, n: nat, m: nat)
    requires 0 < n && m <= |refs|
    ensures Sound(Snapshots(ClockTrace(refs, n, m)), refs)
    ensures Wf(Shown(ClockBefore(ClockTrace(refs, n, m), n).frames), m)
  {
    if m > 0 {
      var t := ClockTrace(refs, n, m - 1);
      ClockTraceWf(refs, n, m - 1);
      var next := ClockStep(ClockBefore(t, n), refs, m - 1);
      ClockStepKeeps(ClockBefore(t, n), refs, m - 1);
      ClockTraceNext(refs, n, m - 1, next);
      SoundAppend(Snapshots(t), refs, Shown(next.frames));
      ClockClearedKeeps(next, m);
    }
  }

  /** The sweep loop: clear use bits until a clear one, replace that frame, advance the hand. */
  method Evict(frames: array<ClockFrame>, pointer: nat, page: int, i: nat) returns (pointer': nat)
    requires pointer < frames.Length
    modifies frames
    ensures Clock(frames[..], pointer') == Evicted(old(frames[..]), pointer, page, i)
  {
    pointer' := pointer;
    while true
      invariant pointer' < frames.Length
      invariant Evicted(frames[..], pointer', page, i) == Evicted(old(frames[..]), pointer, page, i)
      decreases CountUse(frames[..])
    {
      if frames[pointer'].useFlag {
        CountUseClear(frames[..], pointer');
        frames[pointer'] := frames[pointer'].(useFlag := false);
        pointer' := (pointer' + 1) % frames.Length;
      } else {
        frames[pointer'] := Loaded(page, i);
        pointer' := (pointer' + 1) % frames.Length;
        break;
      }
    }
  }

  /** Processes reference `i` under Clock. */
  method ClockReference(frames: array<ClockFrame>, pointer: nat, refs: seq<int>, i: nat) returns (pointer': nat, hit: bool)
    requires pointer < frames.Length && i < |refs|
    modifies frames
    ensures Clock(frames[..], pointer') == ClockStep(Clock(old(frames[..]), pointer), refs, i)
    ensures hit <==> Some(refs[i]) in Pages(Shown(old(frames[..])))
  {
    var k := FindFirst(Pages(Shown(frames[..])), Some(refs[i]));
    hit := k != -1;
    pointer' := pointer;
    if hit {
      frames[k] := ClockFrame(frames[k].frame.(isHit := true), true);
    } else {
      var e := FindFirst(Pages(Shown(frames[..])), None);
      if e != -1 {
        frames[e] := Loaded(refs[i], i);
        pointer' := (e + 1) % frames.Length;
      } else {
        pointer' := Evict(frames, pointer, refs[i], i);
      }
    }
  }

  /** The state of a Clock replay after `i` references. */
  ghost predicate ClockReplaying(refs: seq<int>, n: nat, i: nat, c: Clock, snapshots: seq<seq<Frame>>, hits: nat, misses: nat)
    requires 0 < n && i <= |refs|
  {
    && snapshots == Snapshots(ClockTrace(refs, n, i))
    && c == ClockBefore(ClockTrace(refs, n, i), n)
    && (forall k :: 0 <= k < |c.frames| ==> !c.frames[k].frame.isHit)
    && hits == HitCount(snapshots) && hits + misses == i
  }

  /** Processes reference `i` under Clock, records the snapshot and clears the hit mark. */
  method ClockAdvance(frames: array<ClockFrame>, pointer: nat, refs: seq<int>, i: nat, snapshots: seq<seq<Frame>>, hits: nat, misses: nat)
    returns (pointer': nat, snapshots': seq<seq<Frame>>, hits': nat, misses': nat)
    requires 0 < frames.Length && i < |refs|
    requires ClockReplaying(refs, frames.Length, i, Clock(frames[..], pointer), snapshots, hits, misses)
    modifies frames
    ensures ClockReplaying(refs, frames.Length, i + 1, Clock(frames[..], pointer'), snapshots', hits', misses')
  {
    ghost var prev := Clock(frames[..], pointer);
    var hit;
    pointer', hit := ClockReference(frames, pointer, refs, i);
    if hit {
      hits', misses' := hits + 1, misses;
    } else {
      hits', misses' := hits, misses + 1;
    }
    ClockStepHit(prev, refs, i);
    ClockTraceNext(refs, frames.Length, i, Clock(frames[..], pointer'));
    snapshots' := snapshots + [Shown(frames[..])];
    ghost var next := Clock(frames[..], pointer');
    forall k | 0 <= k < frames.Length {
      frames[k] := frames[k].(frame := frames[k].frame.(isHit := false));
    }
    assert Clock(frames[..], pointer') == ClockCleared(next);
  }

  /** Replays the reference string under Clock (second chance). */
  method ClockReplace(refs: seq<int>, frameCount: nat) returns (snapshots: seq<seq<Frame>>, hits: nat, misses: nat)
    requires 1 <= frameCount
    ensures snapshots == Snapshots(ClockTrace(refs, frameCount, |refs|))
    ensures hits == HitCount(snapshots) && hits + misses == |refs|
  {
    var frames := new ClockFrame[frameCount](_ => ClockFrame(Unused, false));
    var pointer := 0;
    snapshots, hits, misses := [], 0, 0;
    for i := 0 to |refs|
      invariant frames.Length == frameCount
      invariant ClockReplaying(refs, frameCount, i, Clock(frames[..], pointer), snapshots, hits, misses)
    {
      pointer, snapshots, hits, misses := ClockAdvance(frames, pointer, refs, i, snapshots, hits, misses);
    }
  }
}
