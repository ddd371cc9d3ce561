/**
 * The edge band: a capped multi-source search that labels each pixel with its Manhattan
 * distance to the nearest pixel the backdrop flood cut out.
 */
module EdgeBand {
  import opened Grid

  // What the labels mean --------------------------------------------------------------

  /** A seed is a fully transparent pixel that belongs to the connected backdrop. */
  predicate IsSeed(alpha: seq<nat>, connected: seq<bool>, i: nat) {
    i < |alpha| && i < |connected| && alpha[i] == 0 && connected[i]
  }

  ghost predicate SeedWithin(alpha: seq<nat>, connected: seq<bool>, w: nat, i: nat, d: int)
    requires w > 0
  {
    exists s :: IsSeed(alpha, connected, s) && Manhattan(i, s, w) <= d
  }

  /** d is the distance from i to the nearest seed. */
  ghost predicate Nearest(alpha: seq<nat>, connected: seq<bool>, w: nat, i: nat, d: nat)
    requires w > 0
  {
    SeedWithin(alpha, connected, w, i, d) && !SeedWithin(alpha, connected, w, i, d - 1)
  }

  /** The band's contract: the nearest distance inside [1, radius], and 0 everywhere else. */
  ghost predicate IsBand(alpha: seq<nat>, connected: seq<bool>, w: nat, radius: int, dist: seq<int>)
    requires w > 0
  {
    && |dist| == |alpha|
    && forall i: nat :: i < |dist| ==> 0 <= dist[i] && InBand(alpha, connected, w, radius, i, dist[i])
  }

  ghost predicate InBand(alpha: seq<nat>, connected: seq<bool>, w: nat, radius: int, i: nat, mark: nat)
    requires w > 0
  {
    if mark == 0 then !(exists d: nat :: 1 <= d <= radius && Nearest(alpha, connected, w, i, d))
    else mark <= radius && Nearest(alpha, connected, w, i, mark)
  }

  // The search's state ----------------------------------------------------------------

  predicate Shaped(alpha: seq<nat>, connected: seq<bool>, w: nat, h: nat) {
    w > 0 && |alpha| == w * h && |connected| == |alpha|
  }

  /** Labelled pixels are the queued ones; a mark never understates and never passes radius + 1. */
  ghost predicate Labels(alpha: seq<nat>, connected: seq<bool>, w: nat, h: nat, radius: int, dist: seq<int>, queue: seq<nat>)
    requires Shaped(alpha, connected, w, h)
  {
    && |dist| == |alpha|
    && NoRepeats(queue)
    && (forall k :: 0 <= k < |queue| ==> queue[k] < |dist| && dist[queue[k]] > 0)
    && (forall i: nat :: i < |dist| ==> 0 <= dist[i] <= radius + 1)
    && (forall i: nat :: i < |dist| && dist[i] > 0 ==> i in queue)
    && (forall i: nat :: i < |dist| ==> (dist[i] == 1 <==> IsSeed(alpha, connected, i)))
    && (forall i: nat :: i < |dist| && dist[i] > 1 ==> SeedWithin(alpha, connected, w, i, dist[i] - 1))
  }

  /**
   * The queue is in mark order: everything before its head carries at most `level`, from the
   * head to `split` exactly `level`, and from there on `level + 1`.
   */
  ghost predicate Ordered(dist: seq<int>, queue: seq<nat>, head: nat, split: nat, level: int) {
    && head <= split <= |queue| && (head < split || head == |queue|)
    && (forall k :: 0 <= k < |queue| ==> queue[k] < |dist|)
    && (forall k :: 0 <= k < head ==> dist[queue[k]] <= level)
    && (forall k :: head <= k < split ==> dist[queue[k]] == level)
    && (forall k :: split <= k < |queue| ==> dist[queue[k]] == level + 1)
  }

  ghost predicate Kept(was: seq<int>, now: seq<int>) {
    |was| == |now| && forall i :: 0 <= i < |was| && was[i] != 0 ==> now[i] == was[i]
  }

  /** Every neighbour of i carries a mark at most one above i's. */
  ghost predicate Relaxed(w: nat, dist: seq<int>, i: nat)
    requires w > 0
  {
    i < |dist| && forall n: nat :: n < |dist| && Manhattan(i, n, w) == 1 ==> 0 < dist[n] <= dist[i] + 1
  }

  ghost predicate Covered(w: nat, h: nat, dist: seq<int>, i: nat, nx: int, ny: int) {
    i < |dist| &&
    (InGrid(nx, ny, w, h) ==> 0 <= At(nx, ny, w) < |dist| && 0 < dist[At(nx, ny, w)] <= dist[i] + 1)
  }

  ghost predicate Done(w: nat, radius: int, dist: seq<int>, queue: seq<nat>, head: nat)
    requires w > 0
  {
    && head <= |queue|
    && (forall k :: 0 <= k < |queue| ==> queue[k] < |dist| && dist[queue[k]] > 0)
    && (forall k :: 0 <= k < head && dist[queue[k]] <= radius ==> Relaxed(w, dist, queue[k]))
  }

  lemma LabelIsSound(alpha: seq<nat>, connected: seq<bool>, w: nat, h: nat, radius: int, dist: seq<int>,
                     queue: seq<nat>, i: nat)
    requires Shaped(alpha, connected, w, h) && Labels(alpha, connected, w, h, radius, dist, queue)
    requires i < |dist| && dist[i] > 0
    ensures SeedWithin(alpha, connected, w, i, dist[i] - 1)
  {
    assert Manhattan(i, i, w) == 0;
  }

  lemma LabelOne(alpha: seq<nat>, connected: seq<bool>, w: nat, h: nat, radius: int, dist: seq<int>, queue: seq<nat>,
                 i: nat, n: nat)
    requires Shaped(alpha, connected, w, h) && Labels(alpha, connected, w, h, radius, dist, queue)
    requires i < |dist| && 0 < dist[i] <= radius
    requires n < |dist| && dist[n] == 0 && Manhattan(i, n, w) == 1
    ensures Labels(alpha, connected, w, h, radius, dist[n := dist[i] + 1], queue + [n])
    ensures n !in queue
  {
    var d, q := dist[n := dist[i] + 1], queue + [n];
    assert n !in queue;
    forall j: nat | j < |d| && d[j] > 0 ensures j in q {
      assert q[|queue|] == n;
    }
    LabelIsSound(alpha, connected, w, h, radius, dist, queue, i);
    var s :| IsSeed(alpha, connected, s) && Manhattan(i, s, w) <= dist[i] - 1;
    Triangle(n, i, s, w);
  }

  lemma QueueOne(dist: seq<int>, queue: seq<nat>, head: nat, split: nat, level: int, n: nat)
    requires Ordered(dist, queue, head, split, level) && head < split
    requires n < |dist| && n !in queue
    ensures Ordered(dist[n := level + 1], queue + [n], head, split, level)
  {}

  lemma AlreadyLabelled(alpha: seq<nat>, connected: seq<bool>, w: nat, h: nat, radius: int, dist: seq<int>,
                        queue: seq<nat>, head: nat, split: nat, level: int, n: nat)
    requires Shaped(alpha, connected, w, h) && Labels(alpha, connected, w, h, radius, dist, queue)
    requires Ordered(dist, queue, head, split, level)
    requires n < |dist| && (dist[n] != 0 || IsSeed(alpha, connected, n))
    ensures 0 < dist[n] <= level + 1
  {
    var k :| 0 <= k < |queue| && queue[k] == n;
  }

  lemma OneMoreDone(w: nat, radius: int, was: seq<int>, now: seq<int>, queue: seq<nat>, longer: seq<nat>, head: nat)
    requires w > 0 && Kept(was, now) && head < |queue| && queue <= longer
    requires Done(w, radius, was, queue, head)
    requires forall k :: 0 <= k < |longer| ==> longer[k] < |now| && now[longer[k]] > 0
    requires now[queue[head]] <= radius ==> Relaxed(w, now, queue[head])
    ensures Done(w, radius, now, longer, head + 1)
  {
    forall k | 0 <= k < head + 1 && now[longer[k]] <= radius ensures Relaxed(w, now, longer[k]) {
      if k < head {
        assert Relaxed(w, was, queue[k]);
      }
    }
  }

  /** Covering the four coordinates around i, one after the other, relaxes i. */
  lemma AllCovered(w: nat, h: nat, d1: seq<int>, d2: seq<int>, d3: seq<int>, d4: seq<int>, i: nat)
    requires w > 0 && |d1| == w * h && Kept(d1, d2) && Kept(d2, d3) && Kept(d3, d4)
    requires i < |d1| && d1[i] > 0
    requires Covered(w, h, d1, i, X(i, w) - 1, Y(i, w)) && Covered(w, h, d2, i, X(i, w) + 1, Y(i, w))
    requires Covered(w, h, d3, i, X(i, w), Y(i, w) - 1) && Covered(w, h, d4, i, X(i, w), Y(i, w) + 1)
    ensures Relaxed(w, d4, i)
  {
    forall n: nat | n < |d4| && Manhattan(i, n, w) == 1 ensures 0 < d4[n] <= d4[i] + 1 {
      AdjacentIsNeighbour(i, n, w, h);
    }
  }

  // Why the labels are exact ----------------------------------------------------------

  /** With the work list exhausted, a seed at distance d <= radius bounds the mark by d + 1. */
  lemma {:induction false} LabelBound(alpha: seq<nat>, connected: seq<bool>, w: nat, h: nat, radius: int,
                                      dist: seq<int>, queue: seq<nat>, i: nat, s: nat)
    requires Shaped(alpha, connected, w, h) && Labels(alpha, connected, w, h, radius, dist, queue)
    requires Done(w, radius, dist, queue, |queue|)
    requires i < |dist| && IsSeed(alpha, connected, s) && Manhattan(i, s, w) <= radius
    ensures 0 < dist[i] <= Manhattan(i, s, w) + 1
    decreases Manhattan(i, s, w)
  {
    SamePosition(i, s, w, h);
    if i != s {
      var m := StepTowards(i, s, w, h);
      LabelBound(alpha, connected, w, h, radius, dist, queue, m, s);
      var k :| 0 <= k < |queue| && queue[k] == m;
      assert Relaxed(w, dist, queue[k]);
    }
  }

  /** What the last pass leaves of a mark: seeds and far pixels are dropped. */
  function Dropped(mark: int, radius: int): int {
    if mark <= 1 || mark > radius + 1 then 0 else mark - 1
  }

  lemma LabelIsNearest(alpha: seq<nat>, connected: seq<bool>, w: nat, h: nat, radius: int,
                       dist: seq<int>, queue: seq<nat>, i: nat)
    requires Shaped(alpha, connected, w, h) && Labels(alpha, connected, w, h, radius, dist, queue)
    requires Done(w, radius, dist, queue, |queue|)
    requires i < |dist| && radius > 0
    ensures 0 <= Dropped(dist[i], radius) && InBand(alpha, connected, w, radius, i, Dropped(dist[i], radius))
  {
    var d := dist[i] - 1;
    if d >= 0 {
      LabelIsSound(alpha, connected, w, h, radius, dist, queue, i);
    }
    if d >= 0 && SeedWithin(alpha, connected, w, i, d - 1) {
      var s :| IsSeed(alpha, connected, s) && Manhattan(i, s, w) <= d - 1;
      LabelBound(alpha, connected, w, h, radius, dist, queue, i, s);
    }
    forall e: nat | 1 <= e <= radius && Nearest(alpha, connected, w, i, e) ensures e == d {
      var s :| IsSeed(alpha, connected, s) && Manhattan(i, s, w) <= e;
      LabelBound(alpha, connected, w, h, radius, dist, queue, i, s);
    }
  }

  // The algorithm ---------------------------------------------------------------------

  method Visit(alpha: seq<nat>, connected: seq<bool>, w: nat, h: nat, radius: int, dist: array<int>, queue: seq<nat>,
               i: nat, nx: int, ny: int, ghost head: nat, ghost split: nat)
    returns (longer: seq<nat>)
    requires Shaped(alpha, connected, w, h) && Labels(alpha, connected, w, h, radius, dist[..], queue)
    requires i < dist.Length && head < split && Ordered(dist[..], queue, head, split, dist[i]) && 0 < dist[i] <= radius
    requires (nx, ny) in Around(X(i, w), Y(i, w))
    modifies dist
    ensures Labels(alpha, connected, w, h, radius, dist[..], longer) && queue <= longer
    ensures Kept(old(dist[..]), dist[..]) && Ordered(dist[..], longer, head, split, dist[i])
    ensures Covered(w, h, dist[..], i, nx, ny)
  {
    longer := queue;
    if nx < 0 || ny < 0 || nx >= w || ny >= h {
      return;
    }
    NeighbourIsAdjacent(i, nx, ny, w, h);
    var n: nat := At(nx, ny, w);
    if dist[n] != 0 || (alpha[n] == 0 && connected[n]) {
      AlreadyLabelled(alpha, connected, w, h, radius, dist[..], queue, head, split, dist[i], n);
      return;
    }
    LabelOne(alpha, connected, w, h, radius, dist[..], queue, i, n);
    QueueOne(dist[..], queue, head, split, dist[i], n);
    ghost var labelled := dist[..][n := dist[i] + 1];
    dist[n] := dist[i] + 1;
    assert dist[..] == labelled;
    longer := longer + [n];
  }

  /** One round of the search: the four neighbours of the pixel at the head of the queue. */
  method Round(alpha: seq<nat>, connected: seq<bool>, w: nat, h: nat, radius: int, dist: array<int>, queue: seq<nat>,
               head: nat, ghost split: nat)
    returns (longer: seq<nat>)
    requires Shaped(alpha, connected, w, h) && Labels(alpha, connected, w, h, radius, dist[..], queue)
    requires head < |queue| && Ordered(dist[..], queue, head, split, dist[queue[head]]) && dist[queue[head]] <= radius
    modifies dist
    ensures Labels(alpha, connected, w, h, radius, dist[..], longer) && queue <= longer
    ensures Kept(old(dist[..]), dist[..]) && Ordered(dist[..], longer, head, split, dist[queue[head]])
    ensures Relaxed(w, dist[..], queue[head])
  {
    var i := queue[head];
    var x, y := i % w, i / w;
    longer := Visit(alpha, connected, w, h, radius, dist, queue, i, x - 1, y, head, split);
    ghost var d1 := dist[..];
    longer := Visit(alpha, connected, w, h, radius, dist, longer, i, x + 1, y, head, split);
    ghost var d2 := dist[..];
    longer := Visit(alpha, connected, w, h, radius, dist, longer, i, x, y - 1, head, split);
    ghost var d3 := dist[..];
    longer := Visit(alpha, connected, w, h, radius, dist, longer, i, x, y + 1, head, split);
    AllCovered(w, h, d1, d2, d3, dist[..], i);
  }

  method LabelSeeds(alpha: seq<nat>, connected: seq<bool>, w: nat, h: nat, radius: int, dist: array<int>)
    returns (queue: seq<nat>)
    requires Shaped(alpha, connected, w, h) && dist.Length == |alpha| && radius > 0
    requires forall i :: 0 <= i < dist.Length ==> dist[i] == 0
    modifies dist
    ensures Labels(alpha, connected, w, h, radius, dist[..], queue)
    ensures Ordered(dist[..], queue, 0, |queue|, 1)
  {
    queue := [];
    var i: nat := 0;
    while i < dist.Length
      invariant i <= dist.Length
      invariant forall j: nat :: j < dist.Length ==> dist[j] == if j < i && IsSeed(alpha, connected, j) then 1 else 0
      invariant NoRepeats(queue)
      invariant forall k :: 0 <= k < |queue| ==> queue[k] < i && IsSeed(alpha, connected, queue[k])
      invariant forall j: nat :: j < i && IsSeed(alpha, connected, j) ==> j in queue
    {
      if alpha[i] == 0 && connected[i] {
        dist[i] := 1;
        ghost var was := queue;
        queue := queue + [i];
        assert queue[|was|] == i && forall j :: j in was ==> j in queue;
      }
      i := i + 1;
    }
  }

  /** Take one pixel off the queue: pixels already past the radius spread no further. */
  method Advance(alpha: seq<nat>, connected: seq<bool>, w: nat, h: nat, radius: int, dist: array<int>, queue: seq<nat>,
                 head: nat, ghost split: nat)
    returns (longer: seq<nat>)
    requires Shaped(alpha, connected, w, h) && Labels(alpha, connected, w, h, radius, dist[..], queue)
    requires head < |queue| && Ordered(dist[..], queue, head, split, dist[queue[head]])
    requires Done(w, radius, dist[..], queue, head)
    modifies dist
    ensures Labels(alpha, connected, w, h, radius, dist[..], longer)
    ensures queue <= longer && Ordered(dist[..], longer, head, split, dist[queue[head]])
    ensures dist[queue[head]] == old(dist[queue[head]]) && Done(w, radius, dist[..], longer, head + 1)
  {
    ghost var was := dist[..];
    longer := queue;
    if dist[queue[head]] <= radius {
      longer := Round(alpha, connected, w, h, radius, dist, queue, head, split);
    }
    OneMoreDone(w, radius, was, dist[..], queue, longer, head);
  }

  lemma NextHead(dist: seq<int>, queue: seq<nat>, head: nat, split: nat, level: int)
    requires Ordered(dist, queue, head, split, level) && head < |queue|
    ensures if head + 1 == split then Ordered(dist, queue, head + 1, |queue|, level + 1)
            else Ordered(dist, queue, head + 1, split, level)
  {}

  /** The last pass: seeds and anything beyond the band become 0, the rest lose one. */
  method DropLabels(alpha: seq<nat>, connected: seq<bool>, w: nat, h: nat, radius: int, dist: array<int>,
                    ghost queue: seq<nat>)
    requires Shaped(alpha, connected, w, h) && radius > 0
    requires Labels(alpha, connected, w, h, radius, dist[..], queue)
    requires Done(w, radius, dist[..], queue, |queue|)
    modifies dist
    ensures IsBand(alpha, connected, w, radius, dist[..])
  {
    ghost var labels := dist[..];
    var i: nat := 0;
    while i < dist.Length
      invariant i <= dist.Length
      invariant forall j :: 0 <= j < i ==> dist[j] == Dropped(labels[j], radius)
      invariant forall j :: i <= j < dist.Length ==> dist[j] == labels[j]
    {
      if dist[i] <= 1 || dist[i] > radius + 1 {
        dist[i] := 0;
      } else {
        dist[i] := dist[i] - 1;
      }
      i := i + 1;
    }
    forall j: nat | j < dist.Length
      ensures 0 <= dist[j] && InBand(alpha, connected, w, radius, j, dist[j])
    {
      LabelIsNearest(alpha, connected, w, h, radius, labels, queue, j);
    }
  }

  /** Each pixel's distance to the nearest seed where that lies in [1, radius], else 0. */
  method EdgeDistance(alpha: seq<nat>, connected: seq<bool>, w: nat, h: nat, radius: int) returns (dist: array<int>)
    requires Shaped(alpha, connected, w, h)
    ensures fresh(dist) && IsBand(alpha, connected, w, radius, dist[..])
  {
    dist := new int[|alpha|](_ => 0);
    if radius <= 0 {
      return;
    }
    var queue := LabelSeeds(alpha, connected, w, h, radius, dist);
    WorkListBound(queue, |alpha|);
    var head: nat := 0;
    ghost var split: nat, level := |queue|, 1;
    while head < |queue|
      invariant head <= |queue| <= |alpha| && Labels(alpha, connected, w, h, radius, dist[..], queue)
      invariant Ordered(dist[..], queue, head, split, level) && Done(w, radius, dist[..], queue, head)
      decreases |alpha| - head
    {
      queue := Advance(alpha, connected, w, h, radius, dist, queue, head, split);
      WorkListBound(queue, |alpha|);
      NextHead(dist[..], queue, head, split, level);
      head := head + 1;
      if head == split {
        split, level := |queue|, level + 1;
      }
    }
    DropLabels(alpha, connected, w, h, radius, dist, queue);
  }
}
