/**
 * Texts cut at labels. Free text stands between marks; a mark is a newline with the next label,
 * and may carry a held one-line field before it. Two ways to cut one text at the same labels
 * differ only where a mark occurs inside a piece of free text, and then there are two ways.
 */
module CutText {
  import opened LabelledText

  /** The end of one line and the label of the next. */
  function Cut(name: string): string {
    "\n" + name + "="
  }

  /** What separates two free fields: the next label, or a whole one-line field and then the label. */
  datatype Gap = Plain(name: string) | Held(before: string, name: string)

  function Mark(gap: Gap, held: string): string {
    match gap
    case Plain(name) => Cut(name)
    case Held(before, name) => Cut(before) + held + Cut(name)
  }

  predicate Proper(gap: Gap) {
    CleanName(gap.name) && (gap.Held? ==> CleanName(gap.before) && gap.before != gap.name)
  }

  predicate Fits(gap: Gap, held: string) {
    if gap.Plain? then held == "" else NEWLINE !in held
  }

  predicate At(s: string, t: string, i: int) {
    0 <= i && i + |s| <= |t| && t[i..i + |s|] == s
  }

  ghost predicate Occurs(s: string, t: string) {
    exists a, b :: t == a + s + b
  }

  lemma AtPart(a: string, s: string, b: string, t: string, i: int)
    requires At(a + s + b, t, i)
    ensures At(s, t, i + |a|)
  {
    var u := t[i..i + |a + s + b|];
    assert u == a + s + b;
    assert u[|a|..|a| + |s|] == s;
    SliceOfSlice(t, i, i + |u|, |a|, |a| + |s|);
  }

  lemma SliceOfSlice(t: string, i: nat, j: nat, p: nat, q: nat)
    requires i <= j <= |t| && p <= q <= j - i
    ensures t[i..j][p..q] == t[i + p..i + q]
  {
    forall k | 0 <= k < q - p ensures t[i..j][p..q][k] == t[i + p..i + q][k] {}
  }

  lemma AtChar(s: string, t: string, i: int, k: nat)
    requires At(s, t, i) && k < |s|
    ensures i + k < |t| && t[i + k] == s[k]
  {
    assert t[i + k] == t[i..i + |s|][k];
  }

  lemma OccursInside(s: string, t: string, from: nat, to: nat, i: int)
    requires At(s, t, i) && from <= i && i + |s| <= to <= |t|
    ensures t[from..to] == t[from..i] + s + t[i + |s|..to]
    ensures Occurs(s, t[from..to])
  {
    assert t[from..to] == t[from..i] + t[i..i + |s|] + t[i + |s|..to];
  }

  // Marks ---------------------------------------------------------------------------

  lemma NoLonger(c: string, d: string, sep: char, t: string, i: int)
    requires At(c + [sep], t, i) && At(d + [sep], t, i) && sep !in c
    ensures |c| <= |d|
  {
    AtChar(d + [sep], t, i, |d|);
    if |d| < |c| {
      AtChar(c + [sep], t, i, |d|);
    }
  }

  /** Two texts that end at the first separator from one place are one text. */
  lemma SameEnd(c: string, d: string, sep: char, t: string, i: int)
    requires At(c + [sep], t, i) && At(d + [sep], t, i) && sep !in c && sep !in d
    ensures c == d
  {
    NoLonger(c, d, sep, t, i);
    NoLonger(d, c, sep, t, i);
    assert c + [sep] == d + [sep];
    assert c == (c + [sep])[..|c|] && d == (d + [sep])[..|c|];
  }

  lemma SameCut(a: string, b: string, t: string, i: int)
    requires CleanName(a) && CleanName(b) && At(Cut(a), t, i) && At(Cut(b), t, i)
    ensures a == b
  {
    assert Cut(a) == "\n" + (a + ['=']) + "" && Cut(b) == "\n" + (b + ['=']) + "";
    AtPart("\n", a + ['='], "", t, i);
    AtPart("\n", b + ['='], "", t, i);
    SameEnd(a, b, '=', t, i + 1);
  }

  lemma HeldParts(gap: Gap, held: string, t: string, i: int)
    requires gap.Held? && At(Mark(gap, held), t, i)
    ensures At(Cut(gap.before), t, i) && At(held + ['\n'], t, i + |Cut(gap.before)|)
    ensures At(Cut(gap.name), t, i + |Cut(gap.before)| + |held|)
  {
    var first, last := Cut(gap.before), Cut(gap.name);
    assert Mark(gap, held) == "" + first + (held + last) == first + (held + ['\n']) + last[1..];
    assert Mark(gap, held) == (first + held) + last + "";
    AtPart("", first, held + last, t, i);
    AtPart(first, held + ['\n'], last[1..], t, i);
    AtPart(first + held, last, "", t, i);
  }

  /** A mark found at a place says what it holds. */
  lemma SameMark(gap: Gap, c: string, d: string, t: string, i: int)
    requires Proper(gap) && Fits(gap, c) && Fits(gap, d) && At(Mark(gap, c), t, i) && At(Mark(gap, d), t, i)
    ensures c == d
  {
    if gap.Held? {
      HeldParts(gap, c, t, i);
      HeldParts(gap, d, t, i);
      SameEnd(c, d, NEWLINE, t, i + |Cut(gap.before)|);
    }
  }

  lemma CutNewlines(name: string, k: nat)
    requires CleanName(name) && 0 < k < |Cut(name)|
    ensures Cut(name)[k] != NEWLINE
  {}

  /** A mark has a newline where it starts and before its last label, and nowhere else. */
  lemma MarkNewlines(gap: Gap, held: string, k: nat)
    requires Proper(gap) && Fits(gap, held) && 0 < k < |Mark(gap, held)| && Mark(gap, held)[k] == NEWLINE
    ensures gap.Held? && k == |Cut(gap.before)| + |held|
  {
    if gap.Plain? {
      CutNewlines(gap.name, k);
    } else {
      var a := |Cut(gap.before)|;
      if k < a {
        CutNewlines(gap.before, k);
      } else if k > a + |held| {
        CutNewlines(gap.name, k - a - |held|);
      }
    }
  }

  /** Two marks of one gap never overlap. */
  lemma Apart(gap: Gap, c: string, d: string, t: string, p: int, q: int)
    requires Proper(gap) && Fits(gap, c) && Fits(gap, d)
    requires At(Mark(gap, c), t, p) && At(Mark(gap, d), t, q) && p < q
    ensures p + |Mark(gap, c)| <= q
  {
    if q < p + |Mark(gap, c)| {
      AtChar(Mark(gap, d), t, q, 0);
      AtChar(Mark(gap, c), t, p, q - p);
      MarkNewlines(gap, c, q - p);
      HeldParts(gap, c, t, p);
      HeldParts(gap, d, t, q);
      SameCut(gap.name, gap.before, t, q);
    }
  }

  /** Wherever two texts stand, they do not overlap, and at one place they are one. */
  ghost predicate Exclusive(m: string, n: string) {
    forall t, p, q :: At(m, t, p) && At(n, t, q) ==>
      (p < q ==> p + |m| <= q) && (q < p ==> q + |n| <= p) && (p == q ==> m == n)
  }

  lemma MarksExclude(gap: Gap, c: string, d: string)
    requires Proper(gap) && Fits(gap, c) && Fits(gap, d)
    ensures Exclusive(Mark(gap, c), Mark(gap, d))
  {
    var m, n := Mark(gap, c), Mark(gap, d);
    forall t, p, q | At(m, t, p) && At(n, t, q)
      ensures (p < q ==> p + |m| <= q) && (q < p ==> q + |n| <= p) && (p == q ==> m == n)
    {
      if p < q {
        Apart(gap, c, d, t, p, q);
      } else if q < p {
        Apart(gap, d, c, t, q, p);
      } else {
        SameMark(gap, c, d, t, p);
      }
    }
  }

  lemma MarkHolds(gap: Gap, c: string, d: string)
    requires Proper(gap) && Fits(gap, c) && Fits(gap, d) && Mark(gap, c) == Mark(gap, d)
    ensures c == d
  {
    SameMark(gap, c, d, Mark(gap, c), 0);
  }

  function Marks(gaps: seq<Gap>, held: seq<string>): seq<string>
    requires |held| == |gaps|
  {
    seq(|gaps|, k requires 0 <= k < |gaps| => Mark(gaps[k], held[k]))
  }

  predicate AllFit(gaps: seq<Gap>, held: seq<string>) {
    |held| == |gaps| && forall k :: 0 <= k < |gaps| ==> Fits(gaps[k], held[k])
  }

  predicate AllProper(gaps: seq<Gap>) {
    forall k :: 0 <= k < |gaps| ==> Proper(gaps[k])
  }

  // Woven texts -----------------------------------------------------------------------

  /** A text as pieces of free text and the marks between them. */
  datatype Cutting = Cutting(free: seq<string>, marks: seq<string>)

  predicate Shaped(x: Cutting, n: nat) {
    |x.free| == n + 1 && |x.marks| == n
  }

  /** The first k marks and the k + 1 pieces around them. */
  function Weave(x: Cutting, k: nat): string
    requires |x.free| == |x.marks| + 1 && k <= |x.marks|
  {
    if k == 0 then x.free[0] else Weave(x, k - 1) + x.marks[k - 1] + x.free[k]
  }

  function Woven(x: Cutting): string
    requires |x.free| == |x.marks| + 1
  {
    Weave(x, |x.marks|)
  }

  lemma {:induction false} WeavePrefix(x: Cutting, k: nat, n: nat)
    requires |x.free| == |x.marks| + 1 && k <= n <= |x.marks|
    ensures Weave(x, k) <= Weave(x, n)
  {
    if k < n {
      WeavePrefix(x, k, n - 1);
    }
  }

  /** Piece k ends at ends[k], where mark k starts; the next piece starts where that mark ends. */
  ghost predicate LiesAt(x: Cutting, n: nat, t: string, ends: seq<nat>, k: nat) {
    && k <= n && Shaped(x, n) && |ends| == n + 1
    && (var from := if k == 0 then 0 else ends[k - 1] + |x.marks[k - 1]|;
        from <= ends[k] <= |t| && t[from..ends[k]] == x.free[k])
    && (k < n ==> At(x.marks[k], t, ends[k])) && (k == n ==> ends[k] == |t|)
  }

  ghost predicate Laid(x: Cutting, n: nat, t: string, ends: seq<nat>) {
    forall k: nat :: k <= n ==> LiesAt(x, n, t, ends, k)
  }

  lemma PieceInPrefix(t: string, w: string, v: string, f: string)
    requires w <= t && w == v + f
    ensures |v| <= |w| <= |t| && t[|v|..|w|] == f
  {
    assert w[|v|..] == f;
    SliceOfSlice(t, 0, |w|, |v|, |w|);
  }

  lemma PieceLies(x: Cutting, n: nat, t: string, k: nat)
    requires Shaped(x, n) && t == Woven(x) && k <= n
    ensures var from := if k == 0 then 0 else |Weave(x, k - 1)| + |x.marks[k - 1]|;
            from <= |Weave(x, k)| <= |t| && t[from..|Weave(x, k)|] == x.free[k]
  {
    WeavePrefix(x, k, n);
    var before := if k == 0 then "" else Weave(x, k - 1) + x.marks[k - 1];
    PieceInPrefix(t, Weave(x, k), before, x.free[k]);
  }

  lemma MiddleOfPrefix(t: string, u: string, v: string, m: string, f: string)
    requires u <= t && u == v + m + f
    ensures At(m, t, |v|)
  {
    assert u[|v|..|v| + |m|] == m;
    SliceOfSlice(t, 0, |u|, |v|, |v| + |m|);
    assert t[0..|u|] == u;
  }

  lemma MarkLies(x: Cutting, n: nat, t: string, k: nat)
    requires Shaped(x, n) && t == Woven(x) && k < n
    ensures At(x.marks[k], t, |Weave(x, k)|)
  {
    WeavePrefix(x, k + 1, n);
    MiddleOfPrefix(t, Weave(x, k + 1), Weave(x, k), x.marks[k], x.free[k + 1]);
  }

  lemma WeaveLies(x: Cutting, n: nat, t: string, ends: seq<nat>, k: nat)
    requires Shaped(x, n) && t == Woven(x) && k <= n
    requires |ends| == n + 1 && forall j: nat :: j <= n ==> ends[j] == |Weave(x, j)|
    ensures LiesAt(x, n, t, ends, k)
  {
    PieceLies(x, n, t, k);
    if k < n {
      MarkLies(x, n, t, k);
    }
  }

  lemma LaidOut(x: Cutting, n: nat, t: string) returns (ends: seq<nat>)
    requires Shaped(x, n) && t == Woven(x)
    ensures Laid(x, n, t, ends)
  {
    ends := seq(n + 1, j requires 0 <= j < n + 1 => |Weave(x, j)|);
    forall k: nat | k <= n ensures LiesAt(x, n, t, ends, k) {
      WeaveLies(x, n, t, ends, k);
    }
  }

  // Two ways to cut one text ----------------------------------------------------------

  ghost predicate Comparable(x: Cutting, y: Cutting, n: nat) {
    Shaped(x, n) && Shaped(y, n) && forall k :: 0 <= k < n ==> Exclusive(x.marks[k], y.marks[k])
  }

  /** Mark k of y stands inside the free text of x around mark k; inside the last piece, it leaves y's. */
  ghost predicate Strays(x: Cutting, y: Cutting, n: nat, k: nat) {
    && k < n && Shaped(x, n) && Shaped(y, n)
    && (Occurs(y.marks[k], x.free[k])
        || exists a, b :: x.free[k + 1] == a + y.marks[k] + b && (k + 1 == n ==> b == y.free[k + 1]))
  }

  /** Where mark k of y is no earlier than that of x, piece k + 1 of y starts no earlier than that of x. */
  lemma StartsInOrder(x: Cutting, y: Cutting, n: nat, t: string, ds: seq<nat>, es: seq<nat>, k: nat)
    requires Comparable(x, y, n) && k < n && LiesAt(x, n, t, ds, k) && LiesAt(y, n, t, es, k)
    ensures ds[k] < es[k] ==> ds[k] + |x.marks[k]| <= es[k]
    ensures es[k] < ds[k] ==> es[k] + |y.marks[k]| <= ds[k]
    ensures ds[k] == es[k] ==> x.marks[k] == y.marks[k]
  {
    assert Exclusive(x.marks[k], y.marks[k]);
  }

  lemma StraysLeft(x: Cutting, y: Cutting, n: nat, t: string, ds: seq<nat>, es: seq<nat>, k: nat)
    requires Comparable(x, y, n) && Laid(x, n, t, ds) && Laid(y, n, t, es)
    requires |ds| == |es| == n + 1 && k < n && es[k] < ds[k] && (k > 0 ==> ds[k - 1] <= es[k - 1])
    ensures Strays(x, y, n, k)
  {
    assert LiesAt(x, n, t, ds, k) && LiesAt(y, n, t, es, k);
    StartsInOrder(x, y, n, t, ds, es, k);
    if k > 0 {
      assert LiesAt(x, n, t, ds, k - 1) && LiesAt(y, n, t, es, k - 1);
      StartsInOrder(x, y, n, t, ds, es, k - 1);
    }
    OccursInside(y.marks[k], t, if k == 0 then 0 else ds[k - 1] + |x.marks[k - 1]|, ds[k], es[k]);
  }

  lemma StraysRight(x: Cutting, y: Cutting, n: nat, t: string, ds: seq<nat>, es: seq<nat>, k: nat)
    requires Comparable(x, y, n) && Laid(x, n, t, ds) && Laid(y, n, t, es)
    requires |ds| == |es| == n + 1 && k < n && ds[k] < es[k] && (k + 1 < n ==> es[k + 1] <= ds[k + 1])
    ensures Strays(x, y, n, k)
  {
    assert LiesAt(x, n, t, ds, k) && LiesAt(y, n, t, es, k);
    assert LiesAt(x, n, t, ds, k + 1) && LiesAt(y, n, t, es, k + 1);
    StartsInOrder(x, y, n, t, ds, es, k);
    var m, from, to := y.marks[k], ds[k] + |x.marks[k]|, ds[k + 1];
    OccursInside(m, t, from, to, es[k]);
    assert x.free[k + 1] == t[from..es[k]] + m + t[es[k] + |m|..to];
  }

  lemma {:induction false} FindsLeft(x: Cutting, y: Cutting, n: nat, t: string, ds: seq<nat>, es: seq<nat>, j: nat)
    returns (k: nat)
    requires Comparable(x, y, n) && Laid(x, n, t, ds) && Laid(y, n, t, es)
    requires |ds| == |es| == n + 1 && j < n && es[j] < ds[j]
    ensures Strays(x, y, n, k)
  {
    if j > 0 && es[j - 1] < ds[j - 1] {
      k := FindsLeft(x, y, n, t, ds, es, j - 1);
    } else {
      StraysLeft(x, y, n, t, ds, es, j);
      k := j;
    }
  }

  lemma {:induction false} FindsRight(x: Cutting, y: Cutting, n: nat, t: string, ds: seq<nat>, es: seq<nat>, j: nat)
    returns (k: nat)
    requires Comparable(x, y, n) && Laid(x, n, t, ds) && Laid(y, n, t, es)
    requires |ds| == |es| == n + 1 && j < n && ds[j] < es[j]
    ensures Strays(x, y, n, k)
    decreases n - j
  {
    if j + 1 < n && ds[j + 1] < es[j + 1] {
      k := FindsRight(x, y, n, t, ds, es, j + 1);
    } else {
      StraysRight(x, y, n, t, ds, es, j);
      k := j;
    }
  }

  lemma SameEnds(x: Cutting, y: Cutting, n: nat, t: string, ds: seq<nat>, es: seq<nat>, k: nat)
    requires Comparable(x, y, n) && Laid(x, n, t, ds) && Laid(y, n, t, es) && k <= n
    requires |ds| == |es| == n + 1 && forall j :: 0 <= j < n ==> ds[j] == es[j]
    ensures x.free[k] == y.free[k] && (k < n ==> x.marks[k] == y.marks[k])
  {
    assert LiesAt(x, n, t, ds, k) && LiesAt(y, n, t, es, k);
    if k < n {
      StartsInOrder(x, y, n, t, ds, es, k);
    }
    if k > 0 {
      assert LiesAt(x, n, t, ds, k - 1) && LiesAt(y, n, t, es, k - 1);
      StartsInOrder(x, y, n, t, ds, es, k - 1);
    }
  }

  /** A second way to cut a text puts one of its marks inside free text of the first. */
  lemma TwoCuttings(x: Cutting, y: Cutting, n: nat)
    requires Comparable(x, y, n) && Woven(x) == Woven(y) && x != y
    ensures exists k: nat :: Strays(x, y, n, k)
  {
    var t := Woven(x);
    var ds := LaidOut(x, n, t);
    var es := LaidOut(y, n, t);
    assert LiesAt(x, n, t, ds, n) && LiesAt(y, n, t, es, n);
    if j: nat :| j < n && es[j] < ds[j] {
      var k := FindsLeft(x, y, n, t, ds, es, j);
    } else if j: nat :| j < n && ds[j] < es[j] {
      var k := FindsRight(x, y, n, t, ds, es, j);
    } else {
      forall k: nat | k <= n ensures x.free[k] == y.free[k] && (k < n ==> x.marks[k] == y.marks[k]) {
        SameEnds(x, y, n, t, ds, es, k);
      }
      SamePieces(x, y, n);
    }
  }

  lemma SamePieces(x: Cutting, y: Cutting, n: nat)
    requires Shaped(x, n) && Shaped(y, n)
    requires forall k: nat :: k <= n ==> x.free[k] == y.free[k] && (k < n ==> x.marks[k] == y.marks[k])
    ensures x == y
  {
    assert x.free == y.free && x.marks == y.marks;
  }

  // Making a second cutting -----------------------------------------------------------

  lemma {:induction false} SamePart(x: Cutting, y: Cutting, n: nat, k: nat)
    requires Shaped(x, n) && Shaped(y, n) && k <= n
    requires forall j :: 0 <= j <= k ==> x.free[j] == y.free[j]
    requires forall j :: 0 <= j < k ==> x.marks[j] == y.marks[j]
    ensures Weave(x, k) == Weave(y, k)
  {
    if k > 0 {
      SamePart(x, y, n, k - 1);
    }
  }

  /** Another mark k, with other text on both sides of it. */
  function Recut(x: Cutting, k: nat, a: string, m: string, b: string): Cutting
    requires |x.free| == |x.marks| + 1 && k < |x.marks|
  {
    Cutting(x.free[k := a][k + 1 := b], x.marks[k := m])
  }

  /** Cutting the text around mark k at another place leaves the whole text as it is. */
  lemma {:induction false} RecutWeaves(x: Cutting, k: nat, a: string, m: string, b: string, n: nat)
    requires |x.free| == |x.marks| + 1 && k < n <= |x.marks| && a + m + b == x.free[k] + x.marks[k] + x.free[k + 1]
    ensures Weave(Recut(x, k, a, m, b), n) == Weave(x, n)
  {
    var y := Recut(x, k, a, m, b);
    if n > k + 1 {
      RecutWeaves(x, k, a, m, b, n - 1);
    } else if k == 0 {
      assert Weave(y, 1) == Weave(y, 0) + m + b;
      assert Weave(x, 1) == Weave(x, 0) + x.marks[0] + x.free[1];
    } else {
      SamePart(x, y, |x.marks|, k - 1);
      var w := Weave(x, k - 1) + x.marks[k - 1];
      assert Weave(y, k + 1) == Weave(y, k) + m + b == w + a + m + b == w + (a + m + b);
      assert Weave(x, k + 1) == w + x.free[k] + x.marks[k] + x.free[k + 1] == w + (x.free[k] + x.marks[k] + x.free[k + 1]);
    }
  }

  /** A mark inside the free text to the left of mark k gives another cutting of the same text, */
  lemma RecutLeft(x: Cutting, n: nat, k: nat, a: string, m: string, b: string) returns (y: Cutting)
    requires Shaped(x, n) && k < n && x.free[k] == a + m + b && m != ""
    ensures y == Recut(x, k, a, m, b + x.marks[k] + x.free[k + 1])
    ensures y != x && Woven(y) == Woven(x)
  {
    var rest := b + x.marks[k] + x.free[k + 1];
    y := Recut(x, k, a, m, rest);
    assert a + m + rest == (a + m + b) + x.marks[k] + x.free[k + 1];
    RecutWeaves(x, k, a, m, rest, n);
    assert |y.free[k]| < |x.free[k]|;
  }

  /** and so does one inside the free text to its right. */
  lemma RecutRight(x: Cutting, n: nat, k: nat, a: string, m: string, b: string) returns (y: Cutting)
    requires Shaped(x, n) && k < n && x.free[k + 1] == a + m + b && x.marks[k] != ""
    ensures y == Recut(x, k, x.free[k] + x.marks[k] + a, m, b)
    ensures y != x && Woven(y) == Woven(x)
  {
    var rest := x.free[k] + x.marks[k] + a;
    y := Recut(x, k, rest, m, b);
    assert rest + m + b == x.free[k] + x.marks[k] + (a + m + b);
    RecutWeaves(x, k, rest, m, b, n);
    assert |y.free[k]| > |x.free[k]|;
  }

  // Marks in order --------------------------------------------------------------------

  /** The first k marks occur in t one after the other, none overlapping another. */
  ghost predicate InOrder(t: string, marks: seq<string>, k: nat)
    requires k <= |marks|
    decreases k
  {
    k == 0 || exists i: nat :: At(marks[k - 1], t, i) && InOrder(t[..i], marks, k - 1)
  }

  lemma {:induction false} WovenInOrder(x: Cutting, n: nat, k: nat)
    requires Shaped(x, n) && k <= n
    ensures InOrder(Weave(x, k), x.marks, k)
  {
    if k > 0 {
      WovenInOrder(x, n, k - 1);
      var t, w := Weave(x, k), Weave(x, k - 1);
      MiddleOfPrefix(t, t, w, x.marks[k - 1], x.free[k]);
      assert t[..|w|] == w;
    }
  }

  /** Marks that occur in order cut the text. */
  lemma {:induction false} InOrderWoven(t: string, marks: seq<string>, k: nat) returns (x: Cutting)
    requires k <= |marks| && InOrder(t, marks, k)
    ensures Shaped(x, |marks|) && x.marks == marks && Weave(x, k) == t
    decreases k
  {
    if k == 0 {
      x := Cutting(seq(|marks| + 1, _ => t), marks);
    } else {
      var i: nat :| At(marks[k - 1], t, i) && InOrder(t[..i], marks, k - 1);
      var y := InOrderWoven(t[..i], marks, k - 1);
      x := Cutting(y.free[k := t[i + |marks[k - 1]|..]], marks);
      SamePart(x, y, |marks|, k - 1);
      assert t == t[..i] + marks[k - 1] + t[i + |marks[k - 1]|..];
    }
  }

  // Labels that are not one's own -------------------------------------------------------

  /** Every place of a woven text lies in a piece or in a mark. */
  lemma {:induction false} Home(x: Cutting, n: nat, t: string, ends: seq<nat>, p: nat, k: nat) returns (j: nat, free: bool)
    requires Laid(x, n, t, ends) && k <= n && |ends| == n + 1 == |x.free| && |x.marks| == n && p < ends[k]
    ensures j <= n && (free ==> (if j == 0 then 0 else ends[j - 1] + |x.marks[j - 1]|) <= p < ends[j])
    ensures !free ==> j < n && ends[j] <= p < ends[j] + |x.marks[j]|
  {
    if k == 0 || p >= ends[k - 1] + |x.marks[k - 1]| {
      j, free := k, true;
    } else if p >= ends[k - 1] {
      j, free := k - 1, false;
    } else {
      j, free := Home(x, n, t, ends, p, k - 1);
    }
  }

  function FirstName(gap: Gap): string {
    if gap.Plain? then gap.name else gap.before
  }

  /** The label stands in the marks once only: first of all in mark h. */
  ghost predicate OnlyIn(gaps: seq<Gap>, name: string, h: nat) {
    forall k: nat :: k < |gaps| ==> (FirstName(gaps[k]) == name ==> k == h) && (gaps[k].Held? ==> gaps[k].name != name)
  }

  lemma CutInMark(gap: Gap, held: string, name: string, t: string, e: nat, p: nat)
    requires Proper(gap) && Fits(gap, held) && CleanName(name)
    requires At(Mark(gap, held), t, e) && At(Cut(name), t, p) && e <= p < e + |Mark(gap, held)|
    ensures (p == e && FirstName(gap) == name) || (gap.Held? && gap.name == name)
  {
    AtChar(Cut(name), t, p, 0);
    AtChar(Mark(gap, held), t, e, p - e);
    if gap.Held? {
      HeldParts(gap, held, t, e);
    }
    if p > e {
      MarkNewlines(gap, held, p - e);
      SameCut(gap.name, name, t, p);
    } else {
      SameCut(FirstName(gap), name, t, p);
    }
  }

  lemma CutInPiece(x: Cutting, n: nat, t: string, ends: seq<nat>, name: string, p: nat, j: nat)
    requires LiesAt(x, n, t, ends, j) && CleanName(name) && At(Cut(name), t, p)
    requires (if j == 0 then 0 else ends[j - 1] + |x.marks[j - 1]|) <= p < ends[j]
    requires j < n ==> x.marks[j] != "" && x.marks[j][0] == NEWLINE
    ensures Occurs(Cut(name), x.free[j])
  {
    if j < n {
      AtChar(x.marks[j], t, ends[j], 0);
      if ends[j] < p + |Cut(name)| {
        AtChar(Cut(name), t, p, ends[j] - p);
        CutNewlines(name, ends[j] - p);
      }
    }
    OccursInside(Cut(name), t, if j == 0 then 0 else ends[j - 1] + |x.marks[j - 1]|, ends[j], p);
  }

  /** A label found in a woven text is a mark's own or part of some piece. */
  lemma CutHome(x: Cutting, gaps: seq<Gap>, held: seq<string>, t: string, ends: seq<nat>, name: string, h: nat, p: nat)
    requires AllProper(gaps) && AllFit(gaps, held) && CleanName(name) && OnlyIn(gaps, name, h)
    requires Laid(x, |gaps|, t, ends) && |ends| == |gaps| + 1 && x.marks == Marks(gaps, held)
    requires At(Cut(name), t, p)
    ensures (exists j :: 0 <= j < |x.free| && Occurs(Cut(name), x.free[j])) || (h < |gaps| && p == ends[h])
  {
    var n := |gaps|;
    assert LiesAt(x, n, t, ends, n);
    var j, free := Home(x, n, t, ends, p, n);
    assert LiesAt(x, n, t, ends, j);
    if free {
      if j < n {
        assert x.marks[j] == Mark(gaps[j], held[j]);
      }
      CutInPiece(x, n, t, ends, name, p, j);
    } else {
      CutInMark(gaps[j], held[j], name, t, ends[j], p);
    }
  }
}
