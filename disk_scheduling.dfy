/**
 * Disk scheduling: FCFS, SSTF, SCAN, C-SCAN and LOOK. Each returns the
 * requests in service order, numbered 0..n-1, and a total head movement.
 *
 * FCFS and SSTF walk the queue and add the true distance of every seek; the
 * methods are proved against `Travel`, the distance of a path. SCAN, C-SCAN
 * and LOOK sort and partition the requests and add fixed formulas; they are
 * functions whose postconditions state those formulas exactly as the
 * algorithms compute them, and the lemmas at the end relate each formula to
 * `Travel` of the order it serves.
 */
module DiskScheduling {
  import opened Common

  /** A request as the result lists it: its track and its position in the service order. */
  datatype Served = Served(track: int, order: nat)

  datatype DiskResult = DiskResult(order: seq<Served>, totalHeadMovement: int)

  function Abs(x: int): nat {
    if x < 0 then -x else x
  }

  /** The head movement of serving `path` in order, starting at `head`. */
  function Travel(head: int, path: seq<int>): nat
    decreases |path|
  {
    if path == [] then 0 else Abs(path[0] - head) + Travel(path[0], path[1..])
  }

  /** Where the head rests after serving `path` from `head`. */
  function End(head: int, path: seq<int>): int {
    if path == [] then head else path[|path| - 1]
  }

  /** The requests in service order, each carrying its position. */
  function Numbered(path: seq<int>): (os: seq<Served>)
    ensures |os| == |path|
    ensures forall k :: 0 <= k < |os| ==> os[k] == Served(path[k], k)
  {
    seq(|path|, k requires 0 <= k < |path| => Served(path[k], k))
  }

  lemma NumberedSnoc(path: seq<int>, x: int)
    ensures Numbered(path + [x]) == Numbered(path) + [Served(x, |path|)]
  {
    var l, r := Numbered(path + [x]), Numbered(path) + [Served(x, |path|)];
    assert |l| == |r|;
    forall k | 0 <= k < |l|
      ensures l[k] == r[k]
    {
    }
  }

  lemma {:induction false} TravelAppend(head: int, a: seq<int>, b: seq<int>)
    ensures Travel(head, a + b) == Travel(head, a) + Travel(End(head, a), b)
    decreases |a|
  {
    if a == [] {
      assert a + b == b;
    } else {
      assert (a + b)[1..] == a[1..] + b;
      TravelAppend(a[0], a[1..], b);
    }
  }

  // ---------------------------------------------------------------- FCFS

  /** First come, first served: the requests in input order. */
  method FcfsDisk(tracks: seq<int>, head: int) returns (r: DiskResult)
    ensures r.order == Numbered(tracks)
    ensures r.totalHeadMovement == Travel(head, tracks)
  {
    var total := 0;
    var position := head;
    for k := 0 to |tracks|
      invariant position == End(head, tracks[..k])
      invariant total + Travel(position, tracks[k..]) == Travel(head, tracks)
    {
      assert tracks[k..][1..] == tracks[k + 1..];
      assert tracks[..k + 1] == tracks[..k] + [tracks[k]];
      total := total + Abs(tracks[k] - position);
      position := tracks[k];
    }
    r := DiskResult(Numbered(tracks), total);
  }

  /** The default queue served first come, first served from track 50 moves the head 642 tracks. */
  lemma FcfsDefaultQueue()
    ensures Travel(50, [82, 170, 43, 140, 24, 16, 190]) == 642
  {
  }

  // ---------------------------------------------------------------- SSTF

  /** `distances.indexOf(Math.min(...distances))`: the first remaining request nearest `position`. */
  function Nearest(rest: seq<int>, position: int): (k: nat)
    requires rest != []
    ensures k < |rest|
    ensures forall j :: 0 <= j < |rest| ==> Abs(rest[k] - position) <= Abs(rest[j] - position)
    ensures forall j :: 0 <= j < k ==> Abs(rest[k] - position) < Abs(rest[j] - position)
  {
    if |rest| == 1 then 0
    else
      var k := Nearest(rest[..|rest| - 1], position);
      if Abs(rest[|rest| - 1] - position) < Abs(rest[k] - position) then |rest| - 1 else k
  }

  /** The order SSTF serves `rest` in from `position`. */
  function SstfPath(rest: seq<int>, position: int): (path: seq<int>)
    ensures multiset(path) == multiset(rest)
    decreases |rest|
  {
    if rest == [] then []
    else
      var k := Nearest(rest, position);
      [rest[k]] + SstfPath(Remove(rest, k), rest[k])
  }

  /**
   * Every request in `path` is, when it is served, at least as near the head
   * as every request served after it (all of which are still waiting then).
   */
  ghost predicate Greedy(head: int, path: seq<int>)
    decreases |path|
  {
    path != [] ==>
      (forall j :: 0 <= j < |path| ==> Abs(path[0] - head) <= Abs(path[j] - head)) && Greedy(path[0], path[1..])
  }

  /** The nearest request is no farther than any request taken from the same queue. */
  lemma NearestFirst(rest: seq<int>, position: int, tail: seq<int>)
    requires rest != [] && multiset(tail) <= multiset(rest)
    ensures forall y :: y in tail ==> Abs(rest[Nearest(rest, position)] - position) <= Abs(y - position)
  {
    forall y | y in tail
      ensures Abs(rest[Nearest(rest, position)] - position) <= Abs(y - position)
    {
      assert y in multiset(tail);
      var j :| 0 <= j < |rest| && rest[j] == y;
    }
  }

  lemma {:induction false} SstfGreedy(rest: seq<int>, position: int)
    ensures Greedy(position, SstfPath(rest, position))
    decreases |rest|
  {
    if rest != [] {
      var k := Nearest(rest, position);
      var others := Remove(rest, k);
      var tail := SstfPath(others, rest[k]);
      var path := [rest[k]] + tail;
      assert Greedy(position, path) by {
        SstfGreedy(others, rest[k]);
        NearestFirst(rest, position, tail);
        assert path[1..] == tail;
        forall j | 0 <= j < |path|
          ensures Abs(path[0] - position) <= Abs(path[j] - position)
        {
          if j > 0 {
            assert path[j] in tail;
          }
        }
      }
      assert SstfPath(rest, position) == path;
    }
  }

  /**
   * One SSTF pick: the nearest request is served next, the rest continues
   * from it, and the seek to it is the first leg of the remaining travel.
   */
  lemma SstfStep(rest: seq<int>, position: int, k: nat)
    requires rest != [] && k == Nearest(rest, position)
    ensures SstfPath(rest, position) == [rest[k]] + SstfPath(Remove(rest, k), rest[k])
    ensures Travel(position, SstfPath(rest, position))
         == Abs(rest[k] - position) + Travel(rest[k], SstfPath(Remove(rest, k), rest[k]))
  {
    var path := SstfPath(rest, position);
    assert path[1..] == SstfPath(Remove(rest, k), rest[k]);
  }

  method NearestIndex(rest: seq<int>, position: int) returns (k: nat)
    requires rest != []
    ensures k == Nearest(rest, position)
  {
    k := 0;
    for j := 1 to |rest|
      invariant k < j
      invariant forall i :: 0 <= i < j ==> Abs(rest[k] - position) <= Abs(rest[i] - position)
      invariant forall i :: 0 <= i < k ==> Abs(rest[k] - position) < Abs(rest[i] - position)
    {
      if Abs(rest[j] - position) < Abs(rest[k] - position) {
        k := j;
      }
    }
  }

  /**
   * The loop state of `Sstf` on its way to serving `path` with movement
   * `goal`: `served` went first and `rest` is still waiting with the head at
   * `position`; `ordered` numbers what was served and `total` is the movement
   * so far.
   */
  ghost predicate Serving(path: seq<int>, goal: int, served: seq<int>, rest: seq<int>, position: int,
                          ordered: seq<Served>, total: int)
  {
    && served + SstfPath(rest, position) == path
    && ordered == Numbered(served)
    && total + Travel(position, SstfPath(rest, position)) == goal
  }

  /** One iteration of `Sstf`: serve the nearest waiting request. */
  method Pick(ghost path: seq<int>, ghost goal: int, ghost served: seq<int>, rest: seq<int>, position: int,
              ordered: seq<Served>, total: int)
    returns (rest': seq<int>, position': int, ordered': seq<Served>, total': int, ghost served': seq<int>)
    requires rest != [] && Serving(path, goal, served, rest, position, ordered, total)
    ensures Serving(path, goal, served', rest', position', ordered', total')
    ensures |rest'| == |rest| - 1
  {
    var k := NearestIndex(rest, position);
    var next := rest[k];
    rest' := Remove(rest, k);
    total' := total + Abs(next - position);
    served' := served + [next];
    ordered' := ordered + [Served(next, |ordered|)];
    position' := next;
    PickKeeps(path, goal, served, rest, position, ordered, total, k);
  }

  /** Serving the nearest request keeps the loop's account. */
  lemma PickKeeps(path: seq<int>, goal: int, served: seq<int>, rest: seq<int>, position: int,
                  ordered: seq<Served>, total: int, k: nat)
    requires rest != [] && Serving(path, goal, served, rest, position, ordered, total)
    requires k == Nearest(rest, position)
    ensures Serving(path, goal, served + [rest[k]], Remove(rest, k), rest[k],
                    ordered + [Served(rest[k], |ordered|)], total + Abs(rest[k] - position))
  {
    var next := rest[k];
    SstfStep(rest, position, k);
    assert served + SstfPath(rest, position) == served + [next] + SstfPath(Remove(rest, k), next);
    NumberedSnoc(served, next);
  }

  /** Shortest seek time first: always the nearest remaining request, the first among equals. */
  method Sstf(tracks: seq<int>, head: int) returns (r: DiskResult)
    ensures r.order == Numbered(SstfPath(tracks, head))
    ensures r.totalHeadMovement == Travel(head, SstfPath(tracks, head))
  {
    ghost var path := SstfPath(tracks, head);
    ghost var goal := Travel(head, path);
    var rest := tracks;
    var ordered: seq<Served> := [];
    ghost var served: seq<int> := [];
    var total := 0;
    var position := head;
    while rest != []
      invariant Serving(path, goal, served, rest, position, ordered, total)
      decreases |rest|
    {
      rest, position, ordered, total, served := Pick(path, goal, served, rest, position, ordered, total);
    }
    assert served == path;
    r := DiskResult(ordered, total);
  }

  // ------------------------------------------------- SCAN, C-SCAN, LOOK

  ghost predicate Ascending(s: seq<int>) {
    forall i, j :: 0 <= i < j < |s| ==> s[i] <= s[j]
  }

  ghost predicate Descending(s: seq<int>) {
    forall i, j :: 0 <= i < j < |s| ==> s[i] >= s[j]
  }

  const Id: int -> int := t => t

  /** `[...requests].sort((a, b) => a.trackNumber - b.trackNumber)` */
  function Sorted(tracks: seq<int>): (r: seq<int>)
    ensures Ascending(r) && multiset(r) == multiset(tracks) && |r| == |tracks|
  {
    var r := SortBy(tracks, Id);
    assert forall i, j :: 0 <= i < j < |r| ==> Id(r[i]) <= Id(r[j]);
    r
  }

  /** `filter`: the elements that pass `keep`, in their order. */
  function Filter(s: seq<int>, keep: int -> bool): (r: seq<int>)
    ensures |r| <= |s|
  {
    if s == [] then [] else (if keep(s[0]) then [s[0]] else []) + Filter(s[1..], keep)
  }

  /** Filtering keeps exactly the requests that pass the test. */
  lemma {:induction false} FilterMembers(s: seq<int>, keep: int -> bool)
    ensures forall x :: x in Filter(s, keep) <==> x in s && keep(x)
  {
    if s != [] {
      FilterMembers(s[1..], keep);
      assert forall x :: x in s <==> x == s[0] || x in s[1..];
    }
  }

  /** Filtering a sorted list leaves it sorted. */
  lemma {:induction false} FilterAscending(s: seq<int>, keep: int -> bool)
    requires Ascending(s)
    ensures Ascending(Filter(s, keep))
  {
    if s != [] {
      var rest := Filter(s[1..], keep);
      FilterAscending(s[1..], keep);
      FilterMembers(s[1..], keep);
      var r := Filter(s, keep);
      assert r == (if keep(s[0]) then [s[0]] else []) + rest;
      if keep(s[0]) {
        forall i, j | 0 <= i < j < |r|
          ensures r[i] <= r[j]
        {
          assert r[j] == rest[j - 1] && r[j] in s[1..];
          var m :| 0 <= m < |s[1..]| && s[1..][m] == r[j];
          assert s[m + 1] == r[j];
          if i > 0 {
            assert r[i] == rest[i - 1];
          }
        }
      }
    }
  }

  function AtLeast(h: int): int -> bool { t => t >= h }
  function Below(h: int): int -> bool { t => t < h }
  function AtMost(h: int): int -> bool { t => t <= h }
  function Above(h: int): int -> bool { t => t > h }

  /** `reverse()` */
  function Reverse(s: seq<int>): (r: seq<int>)
    ensures |r| == |s| && forall i :: 0 <= i < |s| ==> r[i] == s[|s| - 1 - i]
  {
    if s == [] then [] else Reverse(s[1..]) + [s[0]]
  }

  function Max(s: seq<int>): (m: int)
    requires s != []
  {
    if |s| == 1 then s[0]
    else
      var m := Max(s[1..]);
      if s[0] > m then s[0] else m
  }

  function Min(s: seq<int>): (m: int)
    requires s != []
  {
    if |s| == 1 then s[0]
    else
      var m := Min(s[1..]);
      if s[0] < m then s[0] else m
  }

  /** `Max` is the largest request of a non-empty list. */
  lemma {:induction false} MaxIsLargest(s: seq<int>)
    requires s != []
    ensures Max(s) in s && forall x :: x in s ==> x <= Max(s)
  {
    if |s| > 1 {
      MaxIsLargest(s[1..]);
      assert forall x :: x in s ==> x == s[0] || x in s[1..];
    }
  }

  /** `Min` is the smallest request of a non-empty list. */
  lemma {:induction false} MinIsSmallest(s: seq<int>)
    requires s != []
    ensures Min(s) in s && forall x :: x in s ==> Min(s) <= x
  {
    if |s| > 1 {
      MinIsSmallest(s[1..]);
      assert forall x :: x in s ==> x == s[0] || x in s[1..];
    }
  }

  lemma {:induction false} FilterCount(s: seq<int>, keep: int -> bool, x: int)
    ensures multiset(Filter(s, keep))[x] == if keep(x) then multiset(s)[x] else 0
  {
    if s != [] {
      FilterCount(s[1..], keep, x);
      assert s == [s[0]] + s[1..];
    }
  }

  /** Filtering two arrangements of the same requests keeps the same requests. */
  lemma FilterSame(s: seq<int>, t: seq<int>, keep: int -> bool)
    requires multiset(s) == multiset(t)
    ensures multiset(Filter(s, keep)) == multiset(Filter(t, keep))
  {
    forall x
      ensures multiset(Filter(s, keep))[x] == multiset(Filter(t, keep))[x]
    {
      FilterCount(s, keep, x);
      FilterCount(t, keep, x);
    }
  }

  /** The two sides of a split together hold every request once. */
  lemma FilterSplit(s: seq<int>, keep: int -> bool, drop: int -> bool)
    requires forall x :: drop(x) == !keep(x)
    ensures multiset(Filter(s, keep)) + multiset(Filter(s, drop)) == multiset(s)
  {
    forall x
      ensures (multiset(Filter(s, keep)) + multiset(Filter(s, drop)))[x] == multiset(s)[x]
    {
      FilterCount(s, keep, x);
      FilterCount(s, drop, x);
    }
  }

  lemma ReverseMultiset(s: seq<int>)
    ensures multiset(Reverse(s)) == multiset(s)
  {
    if s != [] {
      ReverseMultiset(s[1..]);
      assert s == [s[0]] + s[1..];
    }
  }

  /** The ends of a sorted side are its smallest and largest requests, whatever the input order. */
  lemma Ends(sorted: seq<int>, s: seq<int>)
    requires Ascending(sorted) && sorted != [] && multiset(sorted) == multiset(s)
    ensures s != [] && sorted[0] == Min(s) && sorted[|sorted| - 1] == Max(s)
  {
    MaxIsLargest(s);
    MinIsSmallest(s);
    assert sorted[0] in multiset(s) && sorted[|sorted| - 1] in multiset(s);
    assert sorted[0] in s && sorted[|sorted| - 1] in s;
    assert Min(s) in multiset(sorted) && Max(s) in multiset(sorted);
    var i :| 0 <= i < |sorted| && sorted[i] == Min(s);
    var j :| 0 <= j < |sorted| && sorted[j] == Max(s);
    assert sorted[0] <= sorted[i] && sorted[j] <= sorted[|sorted| - 1];
  }

  lemma Within(s: seq<int>, t: seq<int>, i: int)
    requires 0 <= i < |s| && multiset(s) == multiset(t)
    ensures s[i] in t
  {
    assert s[i] in multiset(s);
  }

  lemma ReverseEnds(s: seq<int>)
    requires s != []
    ensures Reverse(s)[0] == s[|s| - 1] && Reverse(s)[|s| - 1] == s[0]
  {
  }

  lemma ReverseAscending(s: seq<int>)
    requires Ascending(s)
    ensures Descending(Reverse(s)) && multiset(Reverse(s)) == multiset(s)
    ensures s != [] ==> Reverse(s)[0] == s[|s| - 1] && Reverse(s)[|s| - 1] == s[0]
  {
    ReverseMultiset(s);
  }

  /** One side of the sorted queue: the requests that pass `keep`, ascending. */
  function Side(tracks: seq<int>, keep: int -> bool): (s: seq<int>)
    ensures Ascending(s) && multiset(s) == multiset(Filter(tracks, keep))
    ensures |s| == |Filter(tracks, keep)|
  {
    var sorted := Sorted(tracks);
    FilterAscending(sorted, keep);
    FilterSame(sorted, tracks, keep);
    assert |multiset(Filter(sorted, keep))| == |multiset(Filter(tracks, keep))|;
    Filter(sorted, keep)
  }

  /** Every request on a side passes its test. */
  lemma SideMembers(tracks: seq<int>, keep: int -> bool)
    ensures forall x :: x in Side(tracks, keep) ==> x in tracks && keep(x)
  {
    var s := Side(tracks, keep);
    FilterMembers(tracks, keep);
    forall x | x in s
      ensures x in tracks && keep(x)
    {
      assert x in multiset(Filter(tracks, keep));
    }
  }

  /**
   * A side is empty exactly when no request passes its test, and its ends
   * (also the first element once reversed) are the smallest and largest of
   * those requests in input order.
   */
  lemma SideEnds(tracks: seq<int>, keep: int -> bool)
    ensures var s, f := Side(tracks, keep), Filter(tracks, keep);
      && (s != []) == (f != [])
      && (s != [] ==> s[0] == Min(f) && s[|s| - 1] == Max(f) && Reverse(s)[0] == Max(f))
  {
    var s, f := Side(tracks, keep), Filter(tracks, keep);
    if s != [] {
      Ends(s, f);
      ReverseEnds(s);
    }
  }

  /** The sweep direction of SCAN and LOOK. */
  datatype Direction = Up | Down

  /**
   * The order SCAN and LOOK serve the queue in. Going up: every request at or
   * above the head ascending, then every request below it descending. Going
   * down: every request at or below the head descending, then every request
   * above it ascending.
   */
  function SweepOrder(tracks: seq<int>, head: int, dir: Direction): (path: seq<int>)
    ensures multiset(path) == multiset(tracks)
  {
    if dir == Up then
      var g, l := Side(tracks, AtLeast(head)), Side(tracks, Below(head));
      ReverseAscending(l);
      FilterSplit(tracks, AtLeast(head), Below(head));
      g + Reverse(l)
    else
      var l, g := Side(tracks, AtMost(head)), Side(tracks, Above(head));
      ReverseAscending(l);
      FilterSplit(tracks, AtMost(head), Above(head));
      Reverse(l) + g
  }

  /** Going up, SCAN and LOOK serve the requests at or above the head ascending, then the rest descending. */
  lemma SweepUp(tracks: seq<int>, head: int)
    ensures var path, n := SweepOrder(tracks, head, Up), |Filter(tracks, AtLeast(head))|;
      && n <= |path|
      && (forall i :: 0 <= i < n ==> path[i] >= head)
      && (forall i :: n <= i < |path| ==> path[i] < head)
      && Ascending(path[..n]) && Descending(path[n..])
  {
    SweepUpFront(tracks, head);
    SweepUpBack(tracks, head);
    SweepUpSorted(tracks, head);
  }

  lemma SweepUpFront(tracks: seq<int>, head: int)
    ensures var path, n := SweepOrder(tracks, head, Up), |Filter(tracks, AtLeast(head))|;
      n <= |path| && forall i :: 0 <= i < n ==> path[i] >= head
  {
    var g, l := Side(tracks, AtLeast(head)), Side(tracks, Below(head));
    var path := SweepOrder(tracks, head, Up);
    assert path == g + Reverse(l);
    SideMembers(tracks, AtLeast(head));
    forall i | 0 <= i < |g|
      ensures path[i] >= head
    {
      assert path[i] == g[i] && g[i] in g;
    }
  }

  lemma SweepUpBack(tracks: seq<int>, head: int)
    ensures var path, n := SweepOrder(tracks, head, Up), |Filter(tracks, AtLeast(head))|;
      forall i :: n <= i < |path| ==> path[i] < head
  {
    var g, l := Side(tracks, AtLeast(head)), Side(tracks, Below(head));
    var path := SweepOrder(tracks, head, Up);
    assert path == g + Reverse(l);
    ReverseMultiset(l);
    SideMembers(tracks, Below(head));
    forall i | |g| <= i < |path|
      ensures path[i] < head
    {
      Within(Reverse(l), l, i - |g|);
      assert path[i] == Reverse(l)[i - |g|];
    }
  }

  lemma SweepUpSorted(tracks: seq<int>, head: int)
    ensures var path, n := SweepOrder(tracks, head, Up), |Filter(tracks, AtLeast(head))|;
      n <= |path| && Ascending(path[..n]) && Descending(path[n..])
  {
    var g, l := Side(tracks, AtLeast(head)), Side(tracks, Below(head));
    var path := SweepOrder(tracks, head, Up);
    assert path == g + Reverse(l);
    ReverseAscending(l);
    assert path[..|g|] == g && path[|g|..] == Reverse(l);
  }

  /** Going down, SCAN and LOOK serve the requests at or below the head descending, then the rest ascending. */
  lemma SweepDown(tracks: seq<int>, head: int)
    ensures var path, n := SweepOrder(tracks, head, Down), |Filter(tracks, AtMost(head))|;
      && n <= |path|
      && (forall i :: 0 <= i < n ==> path[i] <= head)
      && (forall i :: n <= i < |path| ==> path[i] > head)
      && Descending(path[..n]) && Ascending(path[n..])
  {
    SweepDownFront(tracks, head);
    SweepDownBack(tracks, head);
    SweepDownSorted(tracks, head);
  }

  lemma SweepDownFront(tracks: seq<int>, head: int)
    ensures var path, n := SweepOrder(tracks, head, Down), |Filter(tracks, AtMost(head))|;
      n <= |path| && forall i :: 0 <= i < n ==> path[i] <= head
  {
    var l, g := Side(tracks, AtMost(head)), Side(tracks, Above(head));
    var path := SweepOrder(tracks, head, Down);
    assert path == Reverse(l) + g;
    ReverseMultiset(l);
    SideMembers(tracks, AtMost(head));
    forall i | 0 <= i < |l|
      ensures path[i] <= head
    {
      Within(Reverse(l), l, i);
      assert path[i] == Reverse(l)[i];
    }
  }

  lemma SweepDownBack(tracks: seq<int>, head: int)
    ensures var path, n := SweepOrder(tracks, head, Down), |Filter(tracks, AtMost(head))|;
      forall i :: n <= i < |path| ==> path[i] > head
  {
    var l, g := Side(tracks, AtMost(head)), Side(tracks, Above(head));
    var path := SweepOrder(tracks, head, Down);
    assert path == Reverse(l) + g;
    SideMembers(tracks, Above(head));
    forall i | |l| <= i < |path|
      ensures path[i] > head
    {
      assert path[i] == g[i - |l|] && g[i - |l|] in g;
    }
  }

  lemma SweepDownSorted(tracks: seq<int>, head: int)
    ensures var path, n := SweepOrder(tracks, head, Down), |Filter(tracks, AtMost(head))|;
      n <= |path| && Descending(path[..n]) && Ascending(path[n..])
  {
    var l, g := Side(tracks, AtMost(head)), Side(tracks, Above(head));
    var path := SweepOrder(tracks, head, Down);
    assert path == Reverse(l) + g;
    ReverseAscending(l);
    assert path[..|l|] == Reverse(l) && path[|l|..] == g;
  }

  /** C-SCAN serves every request at or above the head ascending, then every request below it ascending. */
  function CircularOrder(tracks: seq<int>, head: int): (path: seq<int>)
    ensures multiset(path) == multiset(tracks)
  {
    FilterSplit(tracks, AtLeast(head), Below(head));
    Side(tracks, AtLeast(head)) + Side(tracks, Below(head))
  }

  lemma CircularFront(tracks: seq<int>, head: int)
    ensures var path, n := CircularOrder(tracks, head), |Filter(tracks, AtLeast(head))|;
      n <= |path| && forall i :: 0 <= i < n ==> path[i] >= head
  {
    var g, l := Side(tracks, AtLeast(head)), Side(tracks, Below(head));
    var path := CircularOrder(tracks, head);
    assert path == g + l;
    SideMembers(tracks, AtLeast(head));
    forall i | 0 <= i < |g|
      ensures path[i] >= head
    {
      assert path[i] == g[i] && g[i] in g;
    }
  }

  lemma CircularBack(tracks: seq<int>, head: int)
    ensures var path, n := CircularOrder(tracks, head), |Filter(tracks, AtLeast(head))|;
      forall i :: n <= i < |path| ==> path[i] < head
  {
    var g, l := Side(tracks, AtLeast(head)), Side(tracks, Below(head));
    var path := CircularOrder(tracks, head);
    assert path == g + l;
    SideMembers(tracks, Below(head));
    forall i | |g| <= i < |path|
      ensures path[i] < head
    {
      assert path[i] == l[i - |g|] && l[i - |g|] in l;
    }
  }

  /** C-SCAN's order: the requests at or above the head ascending, then the rest, again ascending. */
  lemma CircularShape(tracks: seq<int>, head: int)
    ensures var path, n := CircularOrder(tracks, head), |Filter(tracks, AtLeast(head))|;
      && n <= |path|
      && (forall i :: 0 <= i < n ==> path[i] >= head)
      && (forall i :: n <= i < |path| ==> path[i] < head)
      && Ascending(path[..n]) && Ascending(path[n..])
  {
    CircularFront(tracks, head);
    CircularBack(tracks, head);
    var g, l := Side(tracks, AtLeast(head)), Side(tracks, Below(head));
    var path := CircularOrder(tracks, head);
    assert path[..|g|] == g && path[|g|..] == l;
  }

  // The straight-line arithmetic of each algorithm, on the sorted sides it
  // splits the queue into.

  function ScanUpLegs(g: seq<int>, l: seq<int>, head: int, diskSize: int): int {
    (if g != [] then g[|g| - 1] - head else diskSize - 1 - head) + (if l != [] then diskSize - 1 - l[0] else 0)
  }

  function ScanDownLegs(l: seq<int>, g: seq<int>, head: int): int {
    (if l != [] then head - l[0] else head - 0) + (if g != [] then g[|g| - 1] - 0 else 0)
  }

  function CScanLegs(g: seq<int>, l: seq<int>, head: int, diskSize: int): int {
    (if g != [] then diskSize - 1 - head else diskSize - 1 - head) + (diskSize - 1) + (if l != [] then l[|l| - 1] else 0)
  }

  /** After the in-place `reverse()`, the first element of the lower side is its largest. */
  function LookUpLegs(g: seq<int>, l: seq<int>, head: int): int {
    if g != [] then (g[|g| - 1] - head) + (if l != [] then g[|g| - 1] - l[0] else 0)
    else if l != [] then head - Reverse(l)[0]
    else 0
  }

  function LookDownLegs(l: seq<int>, g: seq<int>, head: int): int {
    if l != [] then (head - l[0]) + (if g != [] then g[|g| - 1] - Reverse(l)[0] else 0)
    else if g != [] then g[0] - head
    else 0
  }

  /** SCAN's head movement going up, as the source adds it. */
  function ScanUpMovement(tracks: seq<int>, head: int, diskSize: int): (total: int)
    ensures var g, l := Filter(tracks, AtLeast(head)), Filter(tracks, Below(head));
      && (g != [] && l != [] ==> total == (Max(g) - head) + (diskSize - 1 - Min(l)))
      && (g != [] && l == [] ==> total == Max(g) - head)
      && (g == [] && l != [] ==> total == (diskSize - 1 - head) + (diskSize - 1 - Min(l)))
      && (g == [] && l == [] ==> total == diskSize - 1 - head)
  {
    var g, l := Side(tracks, AtLeast(head)), Side(tracks, Below(head));
    SideEnds(tracks, AtLeast(head));
    SideEnds(tracks, Below(head));
    ScanUpLegs(g, l, head, diskSize)
  }

  /** SCAN's head movement going down, as the source adds it: the second leg is counted from track 0. */
  function ScanDownMovement(tracks: seq<int>, head: int): (total: int)
    ensures var l, g := Filter(tracks, AtMost(head)), Filter(tracks, Above(head));
      && (l != [] && g != [] ==> total == (head - Min(l)) + Max(g))
      && (l != [] && g == [] ==> total == head - Min(l))
      && (l == [] && g != [] ==> total == head + Max(g))
      && (l == [] && g == [] ==> total == head)
  {
    var l, g := Side(tracks, AtMost(head)), Side(tracks, Above(head));
    SideEnds(tracks, AtMost(head));
    SideEnds(tracks, Above(head));
    ScanDownLegs(l, g, head)
  }

  /** `scan` */
  function Scan(tracks: seq<int>, head: int, diskSize: int, dir: Direction): (r: DiskResult)
    ensures r.order == Numbered(SweepOrder(tracks, head, dir))
    ensures r.totalHeadMovement
         == if dir == Up then ScanUpMovement(tracks, head, diskSize) else ScanDownMovement(tracks, head)
  {
    var total := if dir == Up then ScanUpMovement(tracks, head, diskSize) else ScanDownMovement(tracks, head);
    DiskResult(Numbered(SweepOrder(tracks, head, dir)), total)
  }

  /** `cScan`: both branches of the first leg add the distance to the last track. */
  function CScan(tracks: seq<int>, head: int, diskSize: int): (r: DiskResult)
    ensures r.order == Numbered(CircularOrder(tracks, head))
    ensures var l := Filter(tracks, Below(head));
      r.totalHeadMovement == (diskSize - 1 - head) + (diskSize - 1) + (if l != [] then Max(l) else 0)
  {
    var g, l := Side(tracks, AtLeast(head)), Side(tracks, Below(head));
    SideEnds(tracks, Below(head));
    DiskResult(Numbered(CircularOrder(tracks, head)), CScanLegs(g, l, head, diskSize))
  }

  /**
   * LOOK's head movement going up, as the source adds it. With nothing at or
   * above the head, it reads the lower side after reversing it in place, so
   * it counts only the seek to the nearest request below.
   */
  function LookUpMovement(tracks: seq<int>, head: int): (total: int)
    ensures var g, l := Filter(tracks, AtLeast(head)), Filter(tracks, Below(head));
      && (g != [] && l != [] ==> total == (Max(g) - head) + (Max(g) - Min(l)))
      && (g != [] && l == [] ==> total == Max(g) - head)
      && (g == [] && l != [] ==> total == head - Max(l))
      && (g == [] && l == [] ==> total == 0)
  {
    var g, l := Side(tracks, AtLeast(head)), Side(tracks, Below(head));
    SideEnds(tracks, AtLeast(head));
    SideEnds(tracks, Below(head));
    LookUpLegs(g, l, head)
  }

  /**
   * LOOK's head movement going down, as the source adds it. The second leg
   * reads the lower side after reversing it in place, so it starts from the
   * largest request below the head instead of the smallest; with nothing at
   * or below the head, it counts only the seek to the nearest request above.
   */
  function LookDownMovement(tracks: seq<int>, head: int): (total: int)
    ensures var l, g := Filter(tracks, AtMost(head)), Filter(tracks, Above(head));
      && (l != [] && g != [] ==> total == (head - Min(l)) + (Max(g) - Max(l)))
      && (l != [] && g == [] ==> total == head - Min(l))
      && (l == [] && g != [] ==> total == Min(g) - head)
      && (l == [] && g == [] ==> total == 0)
  {
    var l, g := Side(tracks, AtMost(head)), Side(tracks, Above(head));
    SideEnds(tracks, AtMost(head));
    SideEnds(tracks, Above(head));
    LookDownLegs(l, g, head)
  }

  /** `look` */
  function Look(tracks: seq<int>, head: int, dir: Direction): (r: DiskResult)
    ensures r.order == Numbered(SweepOrder(tracks, head, dir))
    ensures r.totalHeadMovement == if dir == Up then LookUpMovement(tracks, head) else LookDownMovement(tracks, head)
  {
    var total := if dir == Up then LookUpMovement(tracks, head) else LookDownMovement(tracks, head);
    DiskResult(Numbered(SweepOrder(tracks, head, dir)), total)
  }

  // ------------------------------------ what the formulas add, as a path

  lemma {:induction false} TravelAscending(head: int, path: seq<int>)
    requires path != [] && Ascending(path) && head <= path[0]
    ensures Travel(head, path) == path[|path| - 1] - head
    decreases |path|
  {
    if |path| > 1 {
      TravelAscending(path[0], path[1..]);
    }
  }

  lemma {:induction false} TravelDescending(head: int, path: seq<int>)
    requires path != [] && Descending(path) && path[0] <= head
    ensures Travel(head, path) == head - path[|path| - 1]
    decreases |path|
  {
    if |path| > 1 {
      TravelDescending(path[0], path[1..]);
    }
  }

  /** Sweeping up through `a` and then down through `b` moves the head to the top of `a` and back. */
  lemma UpThenDown(head: int, a: seq<int>, b: seq<int>)
    requires a != [] && Ascending(a) && head <= a[0]
    requires Descending(b) && (b != [] ==> b[0] <= a[|a| - 1])
    ensures Travel(head, a + b) == (a[|a| - 1] - head) + (if b != [] then a[|a| - 1] - b[|b| - 1] else 0)
  {
    TravelAppend(head, a, b);
    TravelAscending(head, a);
    if b != [] {
      TravelDescending(a[|a| - 1], b);
    }
  }

  /** Sweeping down through `a` and then up through `b` moves the head to the bottom of `a` and back. */
  lemma DownThenUp(head: int, a: seq<int>, b: seq<int>)
    requires a != [] && Descending(a) && a[0] <= head
    requires Ascending(b) && (b != [] ==> a[|a| - 1] <= b[0])
    ensures Travel(head, a + b) == (head - a[|a| - 1]) + (if b != [] then b[|b| - 1] - a[|a| - 1] else 0)
  {
    TravelAppend(head, a, b);
    TravelDescending(head, a);
    if b != [] {
      TravelAscending(a[|a| - 1], b);
    }
  }

  lemma AscendingSnoc(s: seq<int>, x: int)
    requires Ascending(s) && (s != [] ==> s[|s| - 1] <= x)
    ensures Ascending(s + [x])
  {
  }

  lemma DescendingSnoc(s: seq<int>, x: int)
    requires Descending(s) && (s != [] ==> x <= s[|s| - 1])
    ensures Descending(s + [x])
  {
  }

  /** The head and every request lie on the disk, as the input form enforces. */
  ghost predicate OnDisk(tracks: seq<int>, head: int, diskSize: int) {
    0 <= head < diskSize && forall t :: t in tracks ==> 0 <= t < diskSize
  }

  /** Every track in `s` lies in `[lo, hi]`. */
  ghost predicate Between(s: seq<int>, lo: int, hi: int) {
    forall x :: x in s ==> lo <= x <= hi
  }

  // On the sides themselves: what each formula adds, against the path served.

  lemma ScanUpOnlyAbove(g: seq<int>, l: seq<int>, head: int, diskSize: int)
    requires g != [] && l == [] && Ascending(g) && Between(g, head, diskSize - 1)
    ensures ScanUpLegs(g, l, head, diskSize) == Travel(head, g + Reverse(l))
  {
    assert g[0] in g && g + Reverse(l) == g;
    TravelAscending(head, g);
  }

  lemma ScanUpNoneAbove(g: seq<int>, l: seq<int>, head: int, diskSize: int)
    requires g == [] && 0 <= head < diskSize && Ascending(l) && Between(l, 0, head - 1)
    ensures ScanUpLegs(g, l, head, diskSize) == Travel(head, [diskSize - 1] + (g + Reverse(l)))
  {
    ReverseAscending(l);
    assert g + Reverse(l) == Reverse(l);
    if l != [] {
      assert l[|l| - 1] in l;
      ReverseEnds(l);
    }
    UpThenDown(head, [diskSize - 1], Reverse(l));
  }

  lemma ScanUpBothSides(g: seq<int>, l: seq<int>, head: int, diskSize: int)
    requires g != [] && l != [] && 0 <= head < diskSize
    requires Ascending(g) && Ascending(l) && Between(g, head, diskSize - 1) && Between(l, 0, head - 1)
    ensures ScanUpLegs(g, l, head, diskSize) + (diskSize - 1 - g[|g| - 1])
         == Travel(head, (g + [diskSize - 1]) + Reverse(l))
  {
    ReverseAscending(l);
    ReverseEnds(l);
    assert l[|l| - 1] in l && g[0] in g && g[|g| - 1] in g;
    AscendingSnoc(g, diskSize - 1);
    assert (g + [diskSize - 1])[|g|] == diskSize - 1;
    UpThenDown(head, g + [diskSize - 1], Reverse(l));
  }

  lemma ScanDownOnlyBelow(l: seq<int>, g: seq<int>, head: int)
    requires l != [] && g == [] && Ascending(l) && Between(l, 0, head)
    ensures ScanDownLegs(l, g, head) == Travel(head, Reverse(l) + g)
  {
    ReverseAscending(l);
    ReverseEnds(l);
    assert l[|l| - 1] in l && Reverse(l) + g == Reverse(l);
    TravelDescending(head, Reverse(l));
  }

  lemma ScanDownNoneBelow(l: seq<int>, g: seq<int>, head: int, diskSize: int)
    requires l == [] && 0 <= head && Ascending(g) && Between(g, head + 1, diskSize - 1)
    ensures ScanDownLegs(l, g, head) == Travel(head, [0] + (Reverse(l) + g))
  {
    assert Reverse(l) == [] && Reverse(l) + g == g;
    if g != [] {
      assert g[0] in g;
    }
    DownThenUp(head, [0], g);
  }

  lemma ScanDownBothSides(l: seq<int>, g: seq<int>, head: int, diskSize: int)
    requires l != [] && g != []
    requires Ascending(l) && Ascending(g) && Between(l, 0, head) && Between(g, head + 1, diskSize - 1)
    ensures ScanDownLegs(l, g, head) + l[0] == Travel(head, (Reverse(l) + [0]) + g)
  {
    ReverseAscending(l);
    ReverseEnds(l);
    assert g[0] in g && l[0] in l && l[|l| - 1] in l;
    DescendingSnoc(Reverse(l), 0);
    assert (Reverse(l) + [0])[|l|] == 0;
    DownThenUp(head, Reverse(l) + [0], g);
  }

  lemma CScanLegsTravel(g: seq<int>, l: seq<int>, head: int, diskSize: int)
    requires 0 <= head < diskSize
    requires Ascending(g) && Ascending(l) && Between(g, head, diskSize - 1) && Between(l, 0, head - 1)
    ensures CScanLegs(g, l, head, diskSize) == Travel(head, g + [diskSize - 1, 0] + l)
  {
    if g != [] {
      assert g[|g| - 1] in g && g[0] in g;
    }
    AscendingSnoc(g, diskSize - 1);
    var up := g + [diskSize - 1];
    assert g + [diskSize - 1, 0] + l == up + ([0] + l);
    TravelAppend(head, up, [0] + l);
    TravelAscending(head, up);
    assert ([0] + l)[1..] == l;
    if l != [] {
      assert l[0] in l;
      TravelAscending(0, l);
    }
  }

  lemma LookUpLegsTravel(g: seq<int>, l: seq<int>, head: int)
    requires Ascending(g) && Ascending(l) && (forall x :: x in g ==> head <= x) && (forall x :: x in l ==> x < head)
    ensures g != [] ==> LookUpLegs(g, l, head) == Travel(head, g + Reverse(l))
    ensures g == [] && l != [] ==> LookUpLegs(g, l, head) + (l[|l| - 1] - l[0]) == Travel(head, g + Reverse(l))
  {
    ReverseAscending(l);
    if l != [] {
      assert l[|l| - 1] in l;
    }
    if g != [] {
      assert g[0] in g && g[|g| - 1] in g;
      UpThenDown(head, g, Reverse(l));
    } else if l != [] {
      assert g + Reverse(l) == Reverse(l);
      TravelDescending(head, Reverse(l));
    }
  }

  lemma LookDownLegsTravel(l: seq<int>, g: seq<int>, head: int)
    requires Ascending(l) && Ascending(g) && (forall x :: x in l ==> x <= head) && (forall x :: x in g ==> head < x)
    ensures l != [] ==>
      LookDownLegs(l, g, head) + (if g != [] then l[|l| - 1] - l[0] else 0) == Travel(head, Reverse(l) + g)
    ensures l == [] && g != [] ==> LookDownLegs(l, g, head) + (g[|g| - 1] - g[0]) == Travel(head, Reverse(l) + g)
  {
    ReverseAscending(l);
    if g != [] {
      assert g[0] in g;
    }
    if l != [] {
      assert l[0] in l && l[|l| - 1] in l;
      DownThenUp(head, Reverse(l), g);
    } else if g != [] {
      assert Reverse(l) + g == g;
      TravelAscending(head, g);
    }
  }

  // On the queue: the sides as the algorithms build them.

  lemma UpSides(tracks: seq<int>, head: int)
    ensures var g, l := Side(tracks, AtLeast(head)), Side(tracks, Below(head));
      && SweepOrder(tracks, head, Up) == g + Reverse(l)
      && CircularOrder(tracks, head) == g + l
      && |g| == |Filter(tracks, AtLeast(head))| && |l| == |Filter(tracks, Below(head))|
      && Ascending(g) && Ascending(l) && |Reverse(l)| == |l|
      && (forall x :: x in g ==> x in tracks && head <= x)
      && (forall x :: x in l ==> x in tracks && x < head)
  {
    SideMembers(tracks, AtLeast(head));
    SideMembers(tracks, Below(head));
  }

  lemma DownSides(tracks: seq<int>, head: int)
    ensures var l, g := Side(tracks, AtMost(head)), Side(tracks, Above(head));
      && SweepOrder(tracks, head, Down) == Reverse(l) + g
      && |l| == |Filter(tracks, AtMost(head))| && |g| == |Filter(tracks, Above(head))|
      && Ascending(l) && Ascending(g) && |Reverse(l)| == |l|
      && (forall x :: x in l ==> x in tracks && x <= head)
      && (forall x :: x in g ==> x in tracks && head < x)
  {
    SideMembers(tracks, AtMost(head));
    SideMembers(tracks, Above(head));
  }

  /**
   * SCAN up, against the path it serves. With nothing below the head the
   * formula is the length of that path; with nothing at or above it, a trip
   * to the last track and back down the path. With requests on both sides it
   * falls short of the trip up to the last track and back down by the leg
   * from the highest request to the last track.
   */
  lemma ScanUpTravel(tracks: seq<int>, head: int, diskSize: int)
    requires OnDisk(tracks, head, diskSize)
    ensures var path, n, total := SweepOrder(tracks, head, Up), |Filter(tracks, AtLeast(head))|, ScanUpMovement(tracks, head, diskSize);
      && n <= |path|
      && (0 < n == |path| ==> total == Travel(head, path))
      && (n == 0 ==> total == Travel(head, [diskSize - 1] + path))
      && (0 < n < |path| ==> total + (diskSize - 1 - path[n - 1]) == Travel(head, path[..n] + [diskSize - 1] + path[n..]))
  {
    UpSides(tracks, head);
    var g, l := Side(tracks, AtLeast(head)), Side(tracks, Below(head));
    var path := SweepOrder(tracks, head, Up);
    assert path[..|g|] == g && path[|g|..] == Reverse(l);
    if g != [] && l == [] {
      ScanUpOnlyAbove(g, l, head, diskSize);
    } else if g == [] {
      ScanUpNoneAbove(g, l, head, diskSize);
    } else {
      ScanUpBothSides(g, l, head, diskSize);
    }
  }

  /**
   * SCAN down, against the path it serves. With nothing above the head the
   * formula is the length of that path; with nothing at or below it, a trip
   * to track 0 and back up the path. With requests on both sides it falls
   * short of the trip down to track 0 and back up by the leg from the lowest
   * request to track 0.
   */
  lemma ScanDownTravel(tracks: seq<int>, head: int, diskSize: int)
    requires OnDisk(tracks, head, diskSize)
    ensures var path, n, total := SweepOrder(tracks, head, Down), |Filter(tracks, AtMost(head))|, ScanDownMovement(tracks, head);
      && n <= |path|
      && (0 < n == |path| ==> total == Travel(head, path))
      && (n == 0 ==> total == Travel(head, [0] + path))
      && (0 < n < |path| ==> total + path[n - 1] == Travel(head, path[..n] + [0] + path[n..]))
  {
    DownSides(tracks, head);
    var l, g := Side(tracks, AtMost(head)), Side(tracks, Above(head));
    var path := SweepOrder(tracks, head, Down);
    assert path[..|l|] == Reverse(l) && path[|l|..] == g;
    if l != [] && g == [] {
      ScanDownOnlyBelow(l, g, head);
    } else if l == [] {
      ScanDownNoneBelow(l, g, head, diskSize);
    } else {
      ReverseEnds(l);
      ScanDownBothSides(l, g, head, diskSize);
    }
  }

  /** C-SCAN's formula is the trip up to the last track, the jump to track 0, and the sweep up the rest. */
  lemma CScanTravel(tracks: seq<int>, head: int, diskSize: int)
    requires OnDisk(tracks, head, diskSize)
    ensures var path, n := CircularOrder(tracks, head), |Filter(tracks, AtLeast(head))|;
      && n <= |path|
      && CScan(tracks, head, diskSize).totalHeadMovement == Travel(head, path[..n] + [diskSize - 1, 0] + path[n..])
  {
    UpSides(tracks, head);
    var g, l := Side(tracks, AtLeast(head)), Side(tracks, Below(head));
    var path := CircularOrder(tracks, head);
    CScanLegsTravel(g, l, head, diskSize);
    assert path[..|g|] == g && path[|g|..] == l;
  }

  /**
   * LOOK up, against the path it serves. With a request at or above the head
   * the formula is the length of that path; with every request below, it
   * counts only the seek to the nearest one and falls short by the sweep
   * across the rest.
   */
  lemma LookUpTravel(tracks: seq<int>, head: int)
    ensures var path, n, total := SweepOrder(tracks, head, Up), |Filter(tracks, AtLeast(head))|, LookUpMovement(tracks, head);
      && (n > 0 ==> total == Travel(head, path))
      && (n == 0 && path != [] ==> total + (path[0] - path[|path| - 1]) == Travel(head, path))
  {
    UpSides(tracks, head);
    var g, l := Side(tracks, AtLeast(head)), Side(tracks, Below(head));
    LookUpLegsTravel(g, l, head);
    if l != [] {
      ReverseEnds(l);
    }
  }

  /**
   * LOOK down, against the path it serves. With nothing above the head the
   * formula is the length of that path. When it turns back up, it measures
   * the second leg from the highest request below the head instead of the
   * lowest, and falls short by the span of the lower side; with nothing at
   * or below the head, it counts only the seek to the nearest request and
   * falls short by the sweep across the rest.
   */
  lemma LookDownTravel(tracks: seq<int>, head: int)
    ensures var path, n, total := SweepOrder(tracks, head, Down), |Filter(tracks, AtMost(head))|, LookDownMovement(tracks, head);
      && n <= |path|
      && (0 < n == |path| ==> total == Travel(head, path))
      && (0 < n < |path| ==> total + (path[0] - path[n - 1]) == Travel(head, path))
      && (n == 0 < |path| ==> total + (path[|path| - 1] - path[0]) == Travel(head, path))
  {
    DownSides(tracks, head);
    var l, g := Side(tracks, AtMost(head)), Side(tracks, Above(head));
    var path := SweepOrder(tracks, head, Down);
    LookDownLegsTravel(l, g, head);
    if l != [] {
      ReverseEnds(l);
      assert path[0] == Reverse(l)[0] && path[|l| - 1] == Reverse(l)[|l| - 1];
    }
  }
}
