/** Row-major pixel grids: positions, 4-adjacency and Manhattan distance. */
module Grid {
  function X(i: nat, w: nat): nat
    requires w > 0
  {
    i % w
  }

  function Y(i: nat, w: nat): nat
    requires w > 0
  {
    i / w
  }

  function At(x: int, y: int, w: nat): int {
    y * w + x
  }

  function Abs(a: int): nat {
    if a < 0 then -a else a
  }

  /** Manhattan distance between two positions; 4-adjacent means distance 1. */
  function Manhattan(i: nat, n: nat, w: nat): nat
    requires w > 0
  {
    Abs(X(i, w) - X(n, w)) + Abs(Y(i, w) - Y(n, w))
  }

  /** The four coordinates a scan visits from (x, y), in or out of the grid. */
  function Around(x: int, y: int): set<(int, int)> {
    {(x - 1, y), (x + 1, y), (x, y - 1), (x, y + 1)}
  }

  predicate InGrid(x: int, y: int, w: nat, h: nat) {
    0 <= x < w && 0 <= y < h
  }

  predicate OnBorder(i: nat, w: nat, h: nat)
    requires w > 0
  {
    X(i, w) == 0 || Y(i, w) == 0 || X(i, w) == w - 1 || Y(i, w) == h - 1
  }

  lemma ScaleMonotone(a: int, b: int, w: nat)
    requires a <= b
    ensures a * w <= b * w
  {}

  lemma NextRow(y: int, w: nat)
    ensures (y + 1) * w == y * w + w
  {}

  lemma DivisionIsUnique(i: nat, w: nat, y: nat, x: nat)
    requires w > 0 && x < w && i == y * w + x
    ensures i / w == y && i % w == x
  {
    var q, r := i / w, i % w;
    assert i == q * w + r && 0 <= r < w;
    NextRow(y, w);
    NextRow(q, w);
    if q > y {
      ScaleMonotone(y + 1, q, w);
    } else if q < y {
      ScaleMonotone(q + 1, y, w);
    }
  }

  lemma AtIsPosition(x: int, y: int, w: nat, h: nat)
    requires InGrid(x, y, w, h)
    ensures 0 <= At(x, y, w) < w * h
    ensures X(At(x, y, w), w) == x && Y(At(x, y, w), w) == y
  {
    ScaleMonotone(y + 1, h, w);
    NextRow(y, w);
    ScaleMonotone(0, y, w);
    DivisionIsUnique(y * w + x, w, y, x);
  }

  lemma PositionIsAt(i: nat, w: nat, h: nat)
    requires w > 0 && i < w * h
    ensures InGrid(X(i, w), Y(i, w), w, h) && At(X(i, w), Y(i, w), w) == i
  {
    var y := i / w;
    assert i == y * w + i % w;
    ScaleMonotone(h, if h <= y then y else h, w);
  }

  /** The positions adjacent to i are the in-grid ones among its four neighbours. */
  lemma AdjacentIsNeighbour(i: nat, n: nat, w: nat, h: nat)
    requires w > 0 && i < w * h && n < w * h && Manhattan(i, n, w) == 1
    ensures InGrid(X(n, w), Y(n, w), w, h) && n == At(X(n, w), Y(n, w), w)
    ensures (X(n, w), Y(n, w)) in Around(X(i, w), Y(i, w))
  {
    PositionIsAt(n, w, h);
    PositionIsAt(i, w, h);
  }

  /** Conversely, each in-grid coordinate around i is an adjacent position. */
  lemma NeighbourIsAdjacent(i: nat, nx: int, ny: int, w: nat, h: nat)
    requires w > 0 && InGrid(nx, ny, w, h) && (nx, ny) in Around(X(i, w), Y(i, w))
    ensures 0 <= At(nx, ny, w) < w * h && Manhattan(i, At(nx, ny, w), w) == 1
  {
    AtIsPosition(nx, ny, w, h);
  }

  /** From anywhere but the target, some adjacent in-grid position is one step closer. */
  lemma StepTowards(i: nat, s: nat, w: nat, h: nat) returns (m: nat)
    requires w > 0 && i < w * h && s < w * h && i != s
    ensures m < w * h && Manhattan(m, i, w) == 1 && Manhattan(m, s, w) == Manhattan(i, s, w) - 1
  {
    PositionIsAt(i, w, h);
    PositionIsAt(s, w, h);
    var x, y := X(i, w), Y(i, w);
    if x < X(s, w) {
      x := x + 1;
    } else if x > X(s, w) {
      x := x - 1;
    } else if y < Y(s, w) {
      y := y + 1;
    } else {
      y := y - 1;
    }
    AtIsPosition(x, y, w, h);
    m := At(x, y, w);
  }

  lemma SamePosition(i: nat, s: nat, w: nat, h: nat)
    requires w > 0 && i < w * h && s < w * h
    ensures Manhattan(i, s, w) == 0 <==> i == s
  {
    PositionIsAt(i, w, h);
    PositionIsAt(s, w, h);
  }

  lemma Symmetric(i: nat, n: nat, w: nat)
    requires w > 0
    ensures Manhattan(i, n, w) == Manhattan(n, i, w)
  {}

  /** One step away from i, the distance to s grows by at most one. */
  lemma Triangle(n: nat, i: nat, s: nat, w: nat)
    requires w > 0 && Manhattan(i, n, w) == 1
    ensures Manhattan(n, s, w) <= Manhattan(i, s, w) + 1
  {}

  // Work lists ---------------------------------------------------------------------

  ghost predicate NoRepeats(q: seq<nat>) {
    forall a, b :: 0 <= a < b < |q| ==> q[a] != q[b]
  }

  /** A work list that queues each of n positions at most once never outgrows n. */
  lemma {:induction false} WorkListBound(q: seq<nat>, n: nat)
    requires NoRepeats(q) && forall k :: 0 <= k < |q| ==> q[k] < n
    ensures |q| <= n
  {
    if |q| > 0 {
      assert q[0] < n;
      if k :| 0 <= k < |q| && q[k] == n - 1 {
        var rest := q[..k] + q[k + 1..];
        forall j | 0 <= j < |rest| ensures rest[j] < n - 1 {
          assert rest[j] == q[if j < k then j else j + 1];
        }
        WorkListBound(rest, n - 1);
      } else {
        WorkListBound(q, n - 1);
      }
    }
  }

  /** A pixel is on the border exactly when one of its four neighbours would lie outside the image. */
  lemma BorderLooksOut(i: nat, w: nat, h: nat)
    requires w > 0 && i < w * h
    ensures OnBorder(i, w, h) <==> exists c :: c in Around(X(i, w), Y(i, w)) && !InGrid(c.0, c.1, w, h)
  {
    var x: int, y: int := X(i, w), Y(i, w);
    PositionIsAt(i, w, h);
    assert (x - 1, y) in Around(x, y) && (x + 1, y) in Around(x, y) && (x, y - 1) in Around(x, y) && (x, y + 1) in Around(x, y);
  }
}
