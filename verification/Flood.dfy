/**
 * The backdrop flood: a multi-source search that starts at confident border pixels and
 * spreads through every pixel that is not the subject's.
 */
module Flood {
  import opened Grid

  datatype Class = Subject | Weak | Strong

  // What the mask means ---------------------------------------------------------------

  /** A 4-connected walk over weak or strong pixels that begins at a strong border pixel. */
  ghost predicate BackdropPath(cls: seq<Class>, w: nat, h: nat, p: seq<nat>)
    requires w > 0 && |cls| == w * h
  {
    && |p| > 0
    && (forall k :: 0 <= k < |p| ==> p[k] < |cls| && cls[p[k]] != Subject)
    && cls[p[0]] == Strong && OnBorder(p[0], w, h)
    && (forall k :: 0 < k < |p| ==> Manhattan(p[k - 1], p[k], w) == 1)
  }

  ghost predicate Reached(cls: seq<Class>, w: nat, h: nat, i: nat)
    requires w > 0 && |cls| == w * h
  {
    exists p :: BackdropPath(cls, w, h, p) && p[|p| - 1] == i
  }

  lemma SeedReached(cls: seq<Class>, w: nat, h: nat, i: nat)
    requires w > 0 && |cls| == w * h && i < |cls|
    requires cls[i] == Strong && OnBorder(i, w, h)
    ensures Reached(cls, w, h, i)
  {
    assert BackdropPath(cls, w, h, [i]);
  }

  lemma StepReached(cls: seq<Class>, w: nat, h: nat, i: nat, n: nat)
    requires w > 0 && |cls| == w * h && n < |cls|
    requires Reached(cls, w, h, i) && Manhattan(i, n, w) == 1 && cls[n] != Subject
    ensures Reached(cls, w, h, n)
  {
    var p :| BackdropPath(cls, w, h, p) && p[|p| - 1] == i;
    assert BackdropPath(cls, w, h, p + [n]);
  }

  // The search's state ----------------------------------------------------------------

  /** Marked pixels are exactly the queued ones, each queued once and truly reachable. */
  ghost predicate Sound(cls: seq<Class>, w: nat, h: nat, mask: seq<bool>, queue: seq<nat>)
    requires w > 0 && |cls| == w * h
  {
    && |mask| == |cls|
    && NoRepeats(queue)
    && (forall k :: 0 <= k < |queue| ==>
          queue[k] < |cls| && mask[queue[k]] && cls[queue[k]] != Subject && Reached(cls, w, h, queue[k]))
    && (forall i: nat :: i < |mask| && mask[i] ==> i in queue)
  }

  ghost predicate Grown(was: seq<bool>, now: seq<bool>) {
    |was| == |now| && forall i :: 0 <= i < |was| && was[i] ==> now[i]
  }

  /** Every backdrop-coloured neighbour of i is marked. */
  ghost predicate Spread(cls: seq<Class>, w: nat, mask: seq<bool>, i: nat)
    requires w > 0 && |mask| == |cls|
  {
    forall n: nat :: n < |cls| && Manhattan(i, n, w) == 1 && cls[n] != Subject ==> mask[n]
  }

  ghost predicate Covered(cls: seq<Class>, w: nat, h: nat, mask: seq<bool>, nx: int, ny: int)
    requires |cls| == w * h && |mask| == |cls|
  {
    InGrid(nx, ny, w, h) ==> 0 <= At(nx, ny, w) < |cls| && (cls[At(nx, ny, w)] != Subject ==> mask[At(nx, ny, w)])
  }

  /** Covering the four coordinates around i, one after the other, spreads from i. */
  lemma AllCovered(cls: seq<Class>, w: nat, h: nat, m1: seq<bool>, m2: seq<bool>, m3: seq<bool>, m4: seq<bool>, i: nat)
    requires w > 0 && |cls| == w * h && |m1| == |cls| && i < |cls|
    requires Grown(m1, m2) && Grown(m2, m3) && Grown(m3, m4)
    requires Covered(cls, w, h, m1, X(i, w) - 1, Y(i, w)) && Covered(cls, w, h, m2, X(i, w) + 1, Y(i, w))
    requires Covered(cls, w, h, m3, X(i, w), Y(i, w) - 1) && Covered(cls, w, h, m4, X(i, w), Y(i, w) + 1)
    ensures Spread(cls, w, m4, i)
  {
    forall n: nat | n < |cls| && Manhattan(i, n, w) == 1 && cls[n] != Subject ensures m4[n] {
      AdjacentIsNeighbour(i, n, w, h);
    }
  }

  /** The first `head` entries of the work list are done. */
  ghost predicate Done(cls: seq<Class>, w: nat, mask: seq<bool>, queue: seq<nat>, head: nat)
    requires w > 0 && |mask| == |cls|
  {
    head <= |queue| && forall k :: 0 <= k < head ==> Spread(cls, w, mask, queue[k])
  }

  ghost predicate BorderMarked(cls: seq<Class>, w: nat, h: nat, mask: seq<bool>)
    requires w > 0 && |mask| == |cls|
  {
    forall i: nat :: i < |cls| && cls[i] == Strong && OnBorder(i, w, h) ==> mask[i]
  }

  lemma OneMoreDone(cls: seq<Class>, w: nat, was: seq<bool>, now: seq<bool>, queue: seq<nat>, longer: seq<nat>, head: nat)
    requires w > 0 && |was| == |cls| && Grown(was, now) && head < |queue| && queue <= longer
    requires Done(cls, w, was, queue, head) && Spread(cls, w, now, queue[head])
    ensures Done(cls, w, now, longer, head + 1)
  {
    forall k | 0 <= k < head + 1 ensures Spread(cls, w, now, longer[k]) {
      assert k < head ==> Spread(cls, w, was, queue[k]);
    }
  }

  /** Marking one more reachable pixel and queueing it keeps the state sound. */
  lemma MarkOne(cls: seq<Class>, w: nat, h: nat, mask: seq<bool>, queue: seq<nat>, i: nat)
    requires w > 0 && |cls| == w * h && Sound(cls, w, h, mask, queue)
    requires i < |cls| && !mask[i] && cls[i] != Subject && Reached(cls, w, h, i)
    ensures Sound(cls, w, h, mask[i := true], queue + [i])
    ensures Grown(mask, mask[i := true])
  {
    assert i !in queue;
    var q := queue + [i];
    forall j: nat | j < |mask| && mask[i := true][j] ensures j in q {
      assert q[|queue|] == i;
    }
  }

  /** A mask that holds every seed and is spread everywhere holds every reachable pixel. */
  lemma {:induction false} PathMarked(cls: seq<Class>, w: nat, h: nat, mask: seq<bool>, p: seq<nat>, k: nat)
    requires w > 0 && |cls| == w * h && |mask| == |cls|
    requires BackdropPath(cls, w, h, p) && k < |p|
    requires BorderMarked(cls, w, h, mask)
    requires forall i: nat :: i < |cls| && mask[i] ==> Spread(cls, w, mask, i)
    ensures mask[p[k]]
  {
    if k > 0 {
      PathMarked(cls, w, h, mask, p, k - 1);
      assert Spread(cls, w, mask, p[k - 1]);
    }
  }

  /** When the work list is exhausted the mask is exactly the reachable set. */
  lemma EveryPathMarked(cls: seq<Class>, w: nat, h: nat, mask: seq<bool>, queue: seq<nat>)
    requires w > 0 && |cls| == w * h && Sound(cls, w, h, mask, queue)
    requires BorderMarked(cls, w, h, mask)
    requires Done(cls, w, mask, queue, |queue|)
    ensures forall i: nat :: i < |cls| ==> (mask[i] <==> Reached(cls, w, h, i))
  {
    forall i: nat | i < |cls| && Reached(cls, w, h, i) ensures mask[i] {
      var p :| BackdropPath(cls, w, h, p) && p[|p| - 1] == i;
      PathMarked(cls, w, h, mask, p, |p| - 1);
    }
  }

  // Seeding the border ----------------------------------------------------------------

  ghost predicate Seeded(cls: seq<Class>, w: nat, h: nat, mask: seq<bool>, x: nat, y: nat)
    requires |cls| == w * h && |mask| == |cls|
  {
    InGrid(x, y, w, h) ==> 0 <= At(x, y, w) < |cls| && (cls[At(x, y, w)] == Strong ==> mask[At(x, y, w)])
  }

  ghost predicate RowSeeded(cls: seq<Class>, w: nat, h: nat, mask: seq<bool>, x: nat)
    requires h > 0 && |cls| == w * h && |mask| == |cls|
  {
    forall v: nat :: v < x ==> Seeded(cls, w, h, mask, v, 0) && Seeded(cls, w, h, mask, v, h - 1)
  }

  ghost predicate ColumnSeeded(cls: seq<Class>, w: nat, h: nat, mask: seq<bool>, y: nat)
    requires w > 0 && |cls| == w * h && |mask| == |cls|
  {
    forall v: nat :: v < y ==> Seeded(cls, w, h, mask, 0, v) && Seeded(cls, w, h, mask, w - 1, v)
  }

  lemma BorderSeeded(cls: seq<Class>, w: nat, h: nat, mask: seq<bool>)
    requires w > 0 && h > 0 && |cls| == w * h && |mask| == |cls|
    requires RowSeeded(cls, w, h, mask, w) && ColumnSeeded(cls, w, h, mask, h)
    ensures BorderMarked(cls, w, h, mask)
  {
    forall i: nat | i < |cls| && cls[i] == Strong && OnBorder(i, w, h) ensures mask[i] {
      PositionIsAt(i, w, h);
      var x, y := X(i, w), Y(i, w);
      assert Seeded(cls, w, h, mask, x, 0) && Seeded(cls, w, h, mask, x, h - 1);
      assert Seeded(cls, w, h, mask, 0, y) && Seeded(cls, w, h, mask, w - 1, y);
    }
  }

  lemma StaysSeeded(cls: seq<Class>, w: nat, h: nat, was: seq<bool>, now: seq<bool>, x: nat, y: nat)
    requires w > 0 && h > 0 && |cls| == w * h && |was| == |cls| && Grown(was, now)
    requires RowSeeded(cls, w, h, was, x) && ColumnSeeded(cls, w, h, was, y)
    ensures RowSeeded(cls, w, h, now, x) && ColumnSeeded(cls, w, h, now, y)
  {
    forall v: nat | v < x ensures Seeded(cls, w, h, now, v, 0) && Seeded(cls, w, h, now, v, h - 1) {
      assert Seeded(cls, w, h, was, v, 0) && Seeded(cls, w, h, was, v, h - 1);
    }
    forall v: nat | v < y ensures Seeded(cls, w, h, now, 0, v) && Seeded(cls, w, h, now, w - 1, v) {
      assert Seeded(cls, w, h, was, 0, v) && Seeded(cls, w, h, was, w - 1, v);
    }
  }

  // The algorithm ---------------------------------------------------------------------

  method Seed(cls: seq<Class>, w: nat, h: nat, out: array<bool>, queue: seq<nat>, x: nat, y: nat)
    returns (longer: seq<nat>)
    requires w > 0 && |cls| == w * h && out.Length == |cls|
    requires Sound(cls, w, h, out[..], queue)
    requires InGrid(x, y, w, h) && (x == 0 || y == 0 || x == w - 1 || y == h - 1)
    modifies out
    ensures Sound(cls, w, h, out[..], longer) && Grown(old(out[..]), out[..])
    ensures 0 <= At(x, y, w) < |cls| && (cls[At(x, y, w)] == Strong ==> out[At(x, y, w)])
  {
    AtIsPosition(x, y, w, h);
    var i := y * w + x;
    longer := queue;
    if cls[i] == Strong && !out[i] {
      SeedReached(cls, w, h, i);
      MarkOne(cls, w, h, out[..], queue, i);
      ghost var marked := out[..][i := true];
      out[i] := true;
      assert out[..] == marked;
      longer := longer + [i];
    }
  }

  method Grow(cls: seq<Class>, w: nat, h: nat, out: array<bool>, queue: seq<nat>, nx: int, ny: int, ghost i: nat)
    returns (longer: seq<nat>)
    requires w > 0 && |cls| == w * h && out.Length == |cls|
    requires Sound(cls, w, h, out[..], queue)
    requires i < |cls| && Reached(cls, w, h, i) && (nx, ny) in Around(X(i, w), Y(i, w))
    modifies out
    ensures Sound(cls, w, h, out[..], longer) && Grown(old(out[..]), out[..]) && queue <= longer
    ensures Covered(cls, w, h, out[..], nx, ny)
  {
    longer := queue;
    if nx < 0 || ny < 0 || nx >= w || ny >= h {
      return;
    }
    NeighbourIsAdjacent(i, nx, ny, w, h);
    var n: nat := At(nx, ny, w);
    if out[n] || cls[n] == Subject {
      return;
    }
    StepReached(cls, w, h, i, n);
    MarkOne(cls, w, h, out[..], queue, n);
    ghost var marked := out[..][n := true];
    out[n] := true;
    assert out[..] == marked;
    longer := longer + [n];
  }

  /** One round of the search: the four neighbours of a queued pixel. */
  method Visit(cls: seq<Class>, w: nat, h: nat, out: array<bool>, queue: seq<nat>, i: nat)
    returns (longer: seq<nat>)
    requires w > 0 && |cls| == w * h && out.Length == |cls|
    requires Sound(cls, w, h, out[..], queue) && i in queue
    modifies out
    ensures Sound(cls, w, h, out[..], longer) && Grown(old(out[..]), out[..]) && queue <= longer
    ensures Spread(cls, w, out[..], i)
  {
    var x, y := i % w, i / w;
    longer := Grow(cls, w, h, out, queue, x - 1, y, i);
    ghost var m1 := out[..];
    longer := Grow(cls, w, h, out, longer, x + 1, y, i);
    ghost var m2 := out[..];
    longer := Grow(cls, w, h, out, longer, x, y - 1, i);
    ghost var m3 := out[..];
    longer := Grow(cls, w, h, out, longer, x, y + 1, i);
    AllCovered(cls, w, h, m1, m2, m3, out[..], i);
  }

  method SeedRows(cls: seq<Class>, w: nat, h: nat, out: array<bool>) returns (queue: seq<nat>)
    requires w > 0 && h > 0 && |cls| == w * h && out.Length == |cls|
    requires Sound(cls, w, h, out[..], [])
    modifies out
    ensures Sound(cls, w, h, out[..], queue) && RowSeeded(cls, w, h, out[..], w)
  {
    queue := [];
    var x: nat := 0;
    while x < w
      invariant x <= w && Sound(cls, w, h, out[..], queue)
      invariant RowSeeded(cls, w, h, out[..], x)
    {
      ghost var was := out[..];
      queue := Seed(cls, w, h, out, queue, x, 0);
      queue := Seed(cls, w, h, out, queue, x, h - 1);
      StaysSeeded(cls, w, h, was, out[..], x, 0);
      x := x + 1;
    }
  }

  method SeedColumns(cls: seq<Class>, w: nat, h: nat, out: array<bool>, rows: seq<nat>) returns (queue: seq<nat>)
    requires w > 0 && h > 0 && |cls| == w * h && out.Length == |cls|
    requires Sound(cls, w, h, out[..], rows) && RowSeeded(cls, w, h, out[..], w)
    modifies out
    ensures Sound(cls, w, h, out[..], queue)
    ensures BorderMarked(cls, w, h, out[..])
  {
    queue := rows;
    var y: nat := 0;
    while y < h
      invariant y <= h && Sound(cls, w, h, out[..], queue)
      invariant RowSeeded(cls, w, h, out[..], w) && ColumnSeeded(cls, w, h, out[..], y)
    {
      ghost var was := out[..];
      queue := Seed(cls, w, h, out, queue, 0, y);
      queue := Seed(cls, w, h, out, queue, w - 1, y);
      StaysSeeded(cls, w, h, was, out[..], w, y);
      y := y + 1;
    }
    BorderSeeded(cls, w, h, out[..]);
  }

  /**
   * A pixel is marked exactly when a 4-connected walk of weak or strong pixels joins it to a
   * strong pixel on the border. Each pixel is queued at most once, so the search ends.
   */
  method FloodBackdrop(cls: seq<Class>, w: nat, h: nat) returns (out: array<bool>)
    requires w > 0 && h > 0 && |cls| == w * h
    ensures fresh(out) && out.Length == |cls|
    ensures forall i: nat :: i < |cls| ==> (out[i] <==> Reached(cls, w, h, i))
  {
    out := new bool[|cls|](_ => false);
    var queue := SeedRows(cls, w, h, out);
    queue := SeedColumns(cls, w, h, out, queue);
    WorkListBound(queue, |cls|);
    var head: nat := 0;
    while head < |queue|
      invariant head <= |queue| <= |cls| && Sound(cls, w, h, out[..], queue)
      invariant BorderMarked(cls, w, h, out[..]) && Done(cls, w, out[..], queue, head)
      decreases |cls| - head
    {
      ghost var was := out[..];
      var longer := Visit(cls, w, h, out, queue, queue[head]);
      OneMoreDone(cls, w, was, out[..], queue, longer, head);
      queue := longer;
      WorkListBound(queue, |cls|);
      head := head + 1;
    }
    EveryPathMarked(cls, w, h, out[..], queue);
  }
}
