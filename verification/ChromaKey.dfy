/**
 * Chroma keying after colour analysis: classification by hue offset and chroma, the alpha
 * matte, the refusal gates and the despill weights. Hue offsets and chroma magnitudes are
 * inputs; the gates' ratios and the matte's ramp are exact reals.
 */
module ChromaKey {
  import opened Grid
  import opened Flood
  import EdgeBand

  datatype Options = Options(
    hueTolerance: real,
    weakHueTolerance: real,
    minChroma: real,
    weakMinChroma: real,
    weakMaxChroma: real,
    minBorderCoverage: real,
    maxInteriorKeyFraction: real,
    dangerHueTolerance: real,
    maxSubjectNearKeyFraction: real,
    maxTransparentFraction: real,
    despillStrength: real,
    edgeDespillRadius: int)

  datatype Report = Report(
    borderCoverage: real,
    interiorKeyFraction: real,
    subjectNearKeyFraction: real,
    transparentPixels: nat,
    partialPixels: nat,
    totalPixels: int)

  datatype Outcome =
    | EmptyImage
    | BadTolerance
    | BackdropNotFound(report: Report)
    | SubjectContainsKey(report: Report)
    | SubjectNearKey(report: Report)
    | Keyed(report: Report, alpha: seq<nat>, edge: seq<int>, weight: seq<real>)

  // Pixel rules -----------------------------------------------------------------------

  function ClassOf(hd: real, mag: real, o: Options): Class {
    if hd <= o.hueTolerance && mag >= o.minChroma then Strong
    else if hd <= o.weakHueTolerance && mag >= o.weakMinChroma && (o.weakMaxChroma <= 0.0 || mag <= o.weakMaxChroma)
      then Weak
    else Subject
  }

  predicate MaskAt(mask: seq<bool>, w: nat, h: nat, x: int, y: int)
    requires |mask| == w * h
  {
    InGrid(x, y, w, h) && (AtIsPosition(x, y, w, h); mask[At(x, y, w)])
  }

  predicate Touches(mask: seq<bool>, w: nat, h: nat, x: int, y: int)
    requires |mask| == w * h
  {
    MaskAt(mask, w, h, x - 1, y) || MaskAt(mask, w, h, x + 1, y)
    || MaskAt(mask, w, h, x, y - 1) || MaskAt(mask, w, h, x, y + 1)
  }

  /** The soft matte: a ramp from 0 at the inner tolerance to 255 at the weak one. */
  function SoftAlpha(hd: real, o: Options): nat
    ensures SoftAlpha(hd, o) <= 255
  {
    if hd >= o.weakHueTolerance then 255
    else if hd <= o.hueTolerance then 0
    else
      var ramp := (hd - o.hueTolerance) / (o.weakHueTolerance - o.hueTolerance);
      RampBelowOne(hd - o.hueTolerance, o.weakHueTolerance - o.hueTolerance);
      (ramp * 255.0 + 0.5).Floor
  }

  lemma RampBelowOne(a: real, b: real)
    requires 0.0 < a < b
    ensures 0.0 < a / b < 1.0
  {
    var q := a / b;
    assert q * b == a;
    if q >= 1.0 {
      ScaleUp(q, b);
    }
  }

  lemma ScaleUp(q: real, b: real)
    requires q >= 1.0 && b > 0.0
    ensures q * b >= b
  {}

  function AlphaAt(mask: seq<bool>, hueDiff: seq<real>, w: nat, h: nat, o: Options, i: nat): nat
    requires w > 0 && |mask| == w * h == |hueDiff| && i < |mask|
  {
    if mask[i] then 0
    else if !Touches(mask, w, h, X(i, w), Y(i, w)) then 255
    else SoftAlpha(hueDiff[i], o)
  }

  function WeightAt(alpha: nat, edge: int, o: Options): real {
    if o.despillStrength <= 0.0 then 0.0
    else if alpha < 255 then 1.0 - alpha as real / 255.0
    else if edge > 0 then 1.0 - (edge - 1) as real / (if o.edgeDespillRadius > 1 then o.edgeDespillRadius else 1) as real
    else 0.0
  }

  // Whole-image meanings --------------------------------------------------------------

  function Classes(hueDiff: seq<real>, magnitude: seq<real>, o: Options): seq<Class>
    requires |hueDiff| == |magnitude|
  {
    seq(|hueDiff|, i requires 0 <= i < |hueDiff| => ClassOf(hueDiff[i], magnitude[i], o))
  }

  ghost predicate IsBackdrop(cls: seq<Class>, w: nat, h: nat, mask: seq<bool>)
    requires w > 0 && |cls| == w * h
  {
    |mask| == |cls| && forall i: nat :: i < |cls| ==> (mask[i] <==> Reached(cls, w, h, i))
  }

  function Alphas(mask: seq<bool>, hueDiff: seq<real>, w: nat, h: nat, o: Options): seq<nat>
    requires w > 0 && |mask| == w * h == |hueDiff|
  {
    seq(|mask|, i requires 0 <= i < |mask| => AlphaAt(mask, hueDiff, w, h, o, i))
  }

  lemma TouchesIsAdjacent(mask: seq<bool>, w: nat, h: nat, i: nat)
    requires w > 0 && |mask| == w * h && i < |mask|
    ensures Touches(mask, w, h, X(i, w), Y(i, w)) <==>
            exists n: nat :: n < |mask| && Manhattan(i, n, w) == 1 && mask[n]
  {
    var x: int, y: int := X(i, w), Y(i, w);
    PositionIsAt(i, w, h);
    if Touches(mask, w, h, x, y) {
      var c := if MaskAt(mask, w, h, x - 1, y) then (x - 1, y)
               else if MaskAt(mask, w, h, x + 1, y) then (x + 1, y)
               else if MaskAt(mask, w, h, x, y - 1) then (x, y - 1) else (x, y + 1);
      NeighbourIsAdjacent(i, c.0, c.1, w, h);
    }
    if n: nat :| n < |mask| && Manhattan(i, n, w) == 1 && mask[n] {
      AdjacentIsNeighbour(i, n, w, h);
      assert MaskAt(mask, w, h, X(n, w), Y(n, w));
    }
  }

  // Counts and gates ------------------------------------------------------------------

  ghost function Count(n: nat, p: nat -> bool): nat {
    if n == 0 then 0 else Count(n - 1, p) + (if p(n - 1) then 1 else 0)
  }

  ghost function Border(w: nat, h: nat): nat -> bool {
    (i: nat) => w > 0 && OnBorder(i, w, h)
  }

  ghost function BorderKeyed(mask: seq<bool>, w: nat, h: nat): nat -> bool {
    (i: nat) => w > 0 && i < |mask| && OnBorder(i, w, h) && mask[i]
  }

  ghost function Interior(w: nat, h: nat): nat -> bool {
    (i: nat) => w > 0 && !OnBorder(i, w, h)
  }

  ghost function InteriorKeyed(cls: seq<Class>, mask: seq<bool>, w: nat, h: nat): nat -> bool {
    (i: nat) => w > 0 && i < |mask| && i < |cls| && !OnBorder(i, w, h) && cls[i] == Strong && !mask[i]
  }

  ghost function Opaque(alpha: seq<nat>): nat -> bool {
    (i: nat) => i < |alpha| && alpha[i] == 255
  }

  ghost function OpaqueNear(cls: seq<Class>, hueDiff: seq<real>, alpha: seq<nat>, o: Options): nat -> bool {
    (i: nat) => i < |alpha| && i < |cls| && i < |hueDiff| && alpha[i] == 255
                && hueDiff[i] <= o.dangerHueTolerance && cls[i] != Subject
  }

  ghost function Transparent(alpha: seq<nat>): nat -> bool {
    (i: nat) => i < |alpha| && alpha[i] == 0
  }

  ghost function Partial(alpha: seq<nat>): nat -> bool {
    (i: nat) => i < |alpha| && 0 < alpha[i] < 255
  }

  function Fraction(part: nat, whole: nat): real {
    if whole == 0 then 0.0 else part as real / whole as real
  }

  /** The evidence gathered before the gates are applied. */
  ghost function Evidence(cls: seq<Class>, hueDiff: seq<real>, mask: seq<bool>, alpha: seq<nat>, w: nat, h: nat, o: Options): Report {
    var n := |mask|;
    Report(Fraction(Count(n, BorderKeyed(mask, w, h)), Count(n, Border(w, h))),
           Fraction(Count(n, InteriorKeyed(cls, mask, w, h)), Count(n, Interior(w, h))),
           Fraction(Count(n, OpaqueNear(cls, hueDiff, alpha, o)), Count(n, Opaque(alpha))),
           0, 0, n)
  }

  /** Which outcome the evidence calls for, and what a keyed image then carries. */
  ghost predicate Judged(out: Outcome, r: Report, mask: seq<bool>, alpha: seq<nat>, w: nat, o: Options)
    requires w > 0
  {
    var transparent := Count(|alpha|, Transparent(alpha));
    if r.borderCoverage < o.minBorderCoverage then out == BackdropNotFound(r)
    else if r.interiorKeyFraction > o.maxInteriorKeyFraction then out == SubjectContainsKey(r)
    else if o.maxSubjectNearKeyFraction > 0.0 && r.subjectNearKeyFraction > o.maxSubjectNearKeyFraction
    then out == SubjectNearKey(r)
    else if o.maxTransparentFraction > 0.0 && Fraction(transparent, |alpha|) > o.maxTransparentFraction
    then out == SubjectNearKey(r.(transparentPixels := transparent))
    else
      && out.Keyed?
      && out.alpha == alpha
      && out.report == r.(transparentPixels := transparent, partialPixels := Count(|alpha|, Partial(alpha)))
      && EdgeBand.IsBand(alpha, mask, w, o.edgeDespillRadius, out.edge)
      && |out.weight| == |alpha|
      && forall i :: 0 <= i < |alpha| ==> out.weight[i] == WeightAt(alpha[i], out.edge[i], o)
  }

  // The ramps -------------------------------------------------------------------------

  lemma DivideMonotone(a: real, b: real, c: real)
    requires a <= b && c > 0.0
    ensures a / c <= b / c
  {
    var p, q := a / c, b / c;
    assert p * c == a && q * c == b;
    if p > q {
      Scaled(q, p, c);
    }
  }

  lemma Scaled(a: real, b: real, c: real)
    requires a < b && c > 0.0
    ensures a * c < b * c
  {}

  /** The matte never gets more transparent as the hue moves away from the key, and is 255 times the ramp, rounded. */
  lemma SoftAlphaRamps(near: real, far: real, o: Options)
    requires near <= far
    ensures SoftAlpha(near, o) <= SoftAlpha(far, o)
    ensures o.hueTolerance < near < o.weakHueTolerance ==>
              var exact := (near - o.hueTolerance) / (o.weakHueTolerance - o.hueTolerance) * 255.0;
              -0.5 <= SoftAlpha(near, o) as real - exact <= 0.5
  {
    if o.hueTolerance < near && far < o.weakHueTolerance {
      DivideMonotone(near - o.hueTolerance, far - o.hueTolerance, o.weakHueTolerance - o.hueTolerance);
    }
  }

  /** Despill fades: full strength on the cut and next to it, less with every pixel and with opacity. */
  lemma WeightFades(a: nat, b: nat, d: int, e: int, o: Options)
    requires o.despillStrength > 0.0
    ensures WeightAt(0, e, o) == 1.0 && WeightAt(255, 1, o) == 1.0
    ensures o.edgeDespillRadius >= 1 ==> WeightAt(255, o.edgeDespillRadius, o) == 1.0 / o.edgeDespillRadius as real
    ensures WeightAt(a, e, o.(despillStrength := 0.0)) == 0.0 && (e <= 0 ==> WeightAt(255, e, o) == 0.0)
    ensures a < b < 255 ==> WeightAt(a, d, o) > WeightAt(b, e, o)
    ensures 0 < d < e <= o.edgeDespillRadius ==> WeightAt(255, d, o) > WeightAt(255, e, o)
  {
    if 0 < d < e <= o.edgeDespillRadius {
      DivideStrictly((d - 1) as real, (e - 1) as real, o.edgeDespillRadius as real);
    }
  }

  lemma DivideStrictly(a: real, b: real, c: real)
    requires a < b && c > 0.0
    ensures a / c < b / c
  {
    var p, q := a / c, b / c;
    assert p * c == a && q * c == b;
    DivideMonotone(a, b, c);
  }

  // Main results ----------------------------------------------------------------------

  /** A pixel the backdrop may start from: of the key's hue, and saturated. */
  predicate Starts(hd: real, mag: real, o: Options) {
    hd <= o.hueTolerance && mag >= o.minChroma
  }

  /** A pixel it may spread through: one of those, or a weaker one within the looser tolerance and the chroma band. */
  predicate Spreads(hd: real, mag: real, o: Options) {
    Starts(hd, mag, o)
    || (hd <= o.weakHueTolerance && o.weakMinChroma <= mag && (o.weakMaxChroma > 0.0 ==> mag <= o.weakMaxChroma))
  }

  /** A 4-connected walk over such pixels from the border of the image. */
  ghost predicate ColourPath(hueDiff: seq<real>, magnitude: seq<real>, w: nat, h: nat, o: Options, p: seq<nat>)
    requires w > 0 && |hueDiff| == |magnitude| == w * h
  {
    && |p| > 0
    && (forall k :: 0 <= k < |p| ==> p[k] < |hueDiff| && Spreads(hueDiff[p[k]], magnitude[p[k]], o))
    && Starts(hueDiff[p[0]], magnitude[p[0]], o) && OnBorder(p[0], w, h)
    && (forall k :: 0 < k < |p| ==> Manhattan(p[k - 1], p[k], w) == 1)
  }

  /** The cut-out on the colours themselves: exactly the pixels a colour path joins to the border become the backdrop, and transparent. */
  lemma BackdropOnColours(hueDiff: seq<real>, magnitude: seq<real>, w: nat, h: nat, o: Options, mask: seq<bool>, i: nat)
    requires w > 0 && |hueDiff| == |magnitude| == w * h && i < |hueDiff|
    requires IsBackdrop(Classes(hueDiff, magnitude, o), w, h, mask)
    ensures mask[i] <==> exists p :: ColourPath(hueDiff, magnitude, w, h, o, p) && p[|p| - 1] == i
    ensures mask[i] ==> AlphaAt(mask, hueDiff, w, h, o, i) == 0
  {
    var cls := Classes(hueDiff, magnitude, o);
    assert forall j: nat :: j < |cls| ==> cls[j] == ClassOf(hueDiff[j], magnitude[j], o);
    if mask[i] {
      var p :| BackdropPath(cls, w, h, p) && p[|p| - 1] == i;
      assert ColourPath(hueDiff, magnitude, w, h, o, p);
    }
    if p :| ColourPath(hueDiff, magnitude, w, h, o, p) && p[|p| - 1] == i {
      assert BackdropPath(cls, w, h, p);
    }
  }

  /** Enclosed key colour stays opaque: a weak or strong pixel the flood misses keeps alpha 255. */
  lemma EnclosedStaysOpaque(cls: seq<Class>, mask: seq<bool>, hueDiff: seq<real>, w: nat, h: nat, o: Options, i: nat)
    requires w > 0 && |cls| == w * h == |hueDiff| && IsBackdrop(cls, w, h, mask)
    requires i < |cls| && cls[i] != Subject && !Reached(cls, w, h, i)
    ensures AlphaAt(mask, hueDiff, w, h, o, i) == 255
  {
    TouchesIsAdjacent(mask, w, h, i);
    if n: nat :| n < |mask| && Manhattan(i, n, w) == 1 && mask[n] {
      Symmetric(i, n, w);
      StepReached(cls, w, h, n, i);
    }
  }

  /** Outside the backdrop, alpha drops below 255 only on subject pixels at its very edge. */
  lemma SoftOnlyAtTheRim(cls: seq<Class>, mask: seq<bool>, hueDiff: seq<real>, w: nat, h: nat, o: Options, i: nat)
    requires w > 0 && |cls| == w * h == |hueDiff| && IsBackdrop(cls, w, h, mask)
    requires i < |cls| && !Reached(cls, w, h, i)
    ensures AlphaAt(mask, hueDiff, w, h, o, i) < 255 ==>
              && cls[i] == Subject && hueDiff[i] < o.weakHueTolerance
              && exists n: nat :: n < |cls| && Manhattan(i, n, w) == 1 && Reached(cls, w, h, n)
  {
    if AlphaAt(mask, hueDiff, w, h, o, i) < 255 {
      if cls[i] != Subject {
        EnclosedStaysOpaque(cls, mask, hueDiff, w, h, o, i);
      }
      TouchesIsAdjacent(mask, w, h, i);
    }
  }

  /** The matte softens only pixels whose chroma, not hue, kept them out of the backdrop classes. */
  lemma SoftMeansChromaOutOfBand(cls: seq<Class>, mask: seq<bool>, hueDiff: seq<real>, magnitude: seq<real>,
                                 w: nat, h: nat, o: Options, i: nat)
    requires w > 0 && |hueDiff| == |magnitude| == w * h && cls == Classes(hueDiff, magnitude, o)
    requires IsBackdrop(cls, w, h, mask) && i < |cls| && !Reached(cls, w, h, i)
    requires AlphaAt(mask, hueDiff, w, h, o, i) < 255
    ensures magnitude[i] < o.weakMinChroma || 0.0 < o.weakMaxChroma < magnitude[i]
  {
    SoftOnlyAtTheRim(cls, mask, hueDiff, w, h, o, i);
  }

  /** The edge band measures distance to the flooded backdrop, not to every transparent pixel. */
  lemma BandMeasuresBackdrop(cls: seq<Class>, mask: seq<bool>, hueDiff: seq<real>, w: nat, h: nat, o: Options, i: nat)
    requires w > 0 && |cls| == w * h == |hueDiff| && IsBackdrop(cls, w, h, mask) && i < |cls|
    ensures EdgeBand.IsSeed(Alphas(mask, hueDiff, w, h, o), mask, i) <==> Reached(cls, w, h, i)
  {
    assert Alphas(mask, hueDiff, w, h, o)[i] == AlphaAt(mask, hueDiff, w, h, o, i);
  }

  lemma {:induction false} CountMonotone(n: nat, p: nat -> bool, q: nat -> bool)
    requires forall i: nat :: i < n && p(i) ==> q(i)
    ensures Count(n, p) <= Count(n, q)
  {
    if n > 0 {
      CountMonotone(n - 1, p, q);
    }
  }

  /** The positions of an image that satisfy a predicate. */
  ghost function Where(n: nat, p: nat -> bool): set<nat> {
    set i: nat | i < n && p(i)
  }

  lemma {:induction false} CountIsCardinality(n: nat, p: nat -> bool)
    ensures Count(n, p) == |Where(n, p)|
  {
    if n > 0 {
      CountIsCardinality(n - 1, p);
      var last := n - 1;
      assert Where(n, p) - {last} == Where(n - 1, p);
    }
  }

  /** What share of the pixels of one kind are of another. */
  function Share(part: set<nat>, whole: set<nat>): real {
    if |whole| == 0 then 0.0 else |part| as real / |whole| as real
  }

  /** The pixel sets the gates compare, on the colours, the cut-out and the matte. */
  ghost predicate GateSets(hueDiff: seq<real>, magnitude: seq<real>, mask: seq<bool>, alpha: seq<nat>, w: nat, h: nat, o: Options,
                           frame: set<nat>, cutFrame: set<nat>, inside: set<nat>, enclosed: set<nat>, solid: set<nat>, near: set<nat>)
    requires w > 0 && |hueDiff| == |magnitude| == |mask| == |alpha| == w * h
  {
    && frame == (set i: nat | i < |mask| && OnBorder(i, w, h))
    && cutFrame == (set i: nat | i < |mask| && OnBorder(i, w, h) && mask[i])
    && inside == (set i: nat | i < |mask| && !OnBorder(i, w, h))
    && enclosed == (set i: nat | i < |mask| && !OnBorder(i, w, h) && Starts(hueDiff[i], magnitude[i], o) && !mask[i])
    && solid == (set i: nat | i < |mask| && alpha[i] == 255)
    && near == (set i: nat | i < |mask| && alpha[i] == 255 && hueDiff[i] <= o.dangerHueTolerance
                             && Spreads(hueDiff[i], magnitude[i], o))
  }

  lemma EvidenceOnColours(hueDiff: seq<real>, magnitude: seq<real>, mask: seq<bool>, alpha: seq<nat>, w: nat, h: nat, o: Options,
                          frame: set<nat>, cutFrame: set<nat>, inside: set<nat>, enclosed: set<nat>, solid: set<nat>, near: set<nat>)
    requires w > 0 && |hueDiff| == |magnitude| == |mask| == |alpha| == w * h
    requires GateSets(hueDiff, magnitude, mask, alpha, w, h, o, frame, cutFrame, inside, enclosed, solid, near)
    ensures Evidence(Classes(hueDiff, magnitude, o), hueDiff, mask, alpha, w, h, o)
         == Report(Share(cutFrame, frame), Share(enclosed, inside), Share(near, solid), 0, 0, w * h)
  {
    var n, cls := |mask|, Classes(hueDiff, magnitude, o);
    CountIsCardinality(n, Border(w, h));
    CountIsCardinality(n, BorderKeyed(mask, w, h));
    CountIsCardinality(n, Interior(w, h));
    CountIsCardinality(n, InteriorKeyed(cls, mask, w, h));
    CountIsCardinality(n, Opaque(alpha));
    CountIsCardinality(n, OpaqueNear(cls, hueDiff, alpha, o));
    assert Where(n, Border(w, h)) == frame && Where(n, BorderKeyed(mask, w, h)) == cutFrame;
    assert Where(n, Interior(w, h)) == inside && Where(n, InteriorKeyed(cls, mask, w, h)) == enclosed;
    assert Where(n, Opaque(alpha)) == solid && Where(n, OpaqueNear(cls, hueDiff, alpha, o)) == near;
  }

  /**
   * The four gates in their order, each on its share of pixels: too little of the frame cut out; too
   * much enclosed key colour; too many opaque pixels near the key, unless that gate is off; too much
   * of the image transparent, unless that one is. An image that passes them is keyed, and only such.
   */
  lemma GatesInOrder(hueDiff: seq<real>, magnitude: seq<real>, mask: seq<bool>, alpha: seq<nat>, w: nat, h: nat, o: Options,
                     out: Outcome, frame: set<nat>, cutFrame: set<nat>, inside: set<nat>, enclosed: set<nat>, solid: set<nat>,
                     near: set<nat>, clear: set<nat>, part: set<nat>)
    requires w > 0 && |hueDiff| == |magnitude| == |mask| == |alpha| == w * h
    requires GateSets(hueDiff, magnitude, mask, alpha, w, h, o, frame, cutFrame, inside, enclosed, solid, near)
    requires clear == (set i: nat | i < |alpha| && alpha[i] == 0) && part == (set i: nat | i < |alpha| && 0 < alpha[i] < 255)
    requires Judged(out, Evidence(Classes(hueDiff, magnitude, o), hueDiff, mask, alpha, w, h, o), mask, alpha, w, o)
    ensures var found, holes, close := Share(cutFrame, frame), Share(enclosed, inside), Share(near, solid);
      var r := Report(found, holes, close, 0, 0, w * h);
      var gone := if |alpha| == 0 then 0.0 else |clear| as real / |alpha| as real;
      if found < o.minBorderCoverage then out == BackdropNotFound(r)
      else if holes > o.maxInteriorKeyFraction then out == SubjectContainsKey(r)
      else if o.maxSubjectNearKeyFraction > 0.0 && close > o.maxSubjectNearKeyFraction then out == SubjectNearKey(r)
      else if o.maxTransparentFraction > 0.0 && gone > o.maxTransparentFraction then out == SubjectNearKey(r.(transparentPixels := |clear|))
      else out.Keyed? && out.alpha == alpha && out.report == r.(transparentPixels := |clear|, partialPixels := |part|)
  {
    EvidenceOnColours(hueDiff, magnitude, mask, alpha, w, h, o, frame, cutFrame, inside, enclosed, solid, near);
    CountIsCardinality(|alpha|, Transparent(alpha));
    CountIsCardinality(|alpha|, Partial(alpha));
    assert Where(|alpha|, Transparent(alpha)) == clear && Where(|alpha|, Partial(alpha)) == part;
  }

  /** Every enclosed key-coloured pixel of the second gate is also counted by the third. */
  lemma EnclosedCountsAsNear(cls: seq<Class>, hueDiff: seq<real>, magnitude: seq<real>, mask: seq<bool>,
                             w: nat, h: nat, o: Options)
    requires w > 0 && |hueDiff| == |magnitude| == w * h && cls == Classes(hueDiff, magnitude, o)
    requires IsBackdrop(cls, w, h, mask) && o.hueTolerance <= o.dangerHueTolerance
    ensures Count(|mask|, InteriorKeyed(cls, mask, w, h))
         <= Count(|mask|, OpaqueNear(cls, hueDiff, Alphas(mask, hueDiff, w, h, o), o))
  {
    var alpha := Alphas(mask, hueDiff, w, h, o);
    forall i: nat | i < |mask| && InteriorKeyed(cls, mask, w, h)(i) ensures OpaqueNear(cls, hueDiff, alpha, o)(i) {
      EnclosedStaysOpaque(cls, mask, hueDiff, w, h, o, i);
    }
    CountMonotone(|mask|, InteriorKeyed(cls, mask, w, h), OpaqueNear(cls, hueDiff, alpha, o));
  }

  lemma {:induction false} NearestExists(alpha: seq<nat>, mask: seq<bool>, w: nat, i: nat, d: nat)
    requires w > 0 && EdgeBand.SeedWithin(alpha, mask, w, i, d)
    ensures exists e: nat :: e <= d && EdgeBand.Nearest(alpha, mask, w, i, e)
  {
    if EdgeBand.SeedWithin(alpha, mask, w, i, d - 1) {
      NearestExists(alpha, mask, w, i, d - 1);
    } else {
      assert EdgeBand.Nearest(alpha, mask, w, i, d);
    }
  }

  /** The band is positive exactly on the non-seeds with a seed within the radius. */
  lemma BandPositive(alpha: seq<nat>, mask: seq<bool>, w: nat, h: nat, radius: int, edge: seq<int>, i: nat)
    requires w > 0 && |alpha| == w * h == |mask| && i < |alpha|
    requires EdgeBand.IsBand(alpha, mask, w, radius, edge)
    ensures 0 <= edge[i] && (edge[i] > 0 ==> edge[i] <= radius)
    ensures edge[i] > 0 <==> !EdgeBand.IsSeed(alpha, mask, i) && EdgeBand.SeedWithin(alpha, mask, w, i, radius)
  {
    assert EdgeBand.InBand(alpha, mask, w, radius, i, edge[i]);
    if EdgeBand.IsSeed(alpha, mask, i) {
      assert Manhattan(i, i, w) == 0;
      forall d: nat | d >= 1 ensures !EdgeBand.Nearest(alpha, mask, w, i, d) {
        assert EdgeBand.SeedWithin(alpha, mask, w, i, d - 1);
      }
    } else if EdgeBand.SeedWithin(alpha, mask, w, i, radius) {
      var s :| EdgeBand.IsSeed(alpha, mask, s) && Manhattan(i, s, w) <= radius;
      NearestExists(alpha, mask, w, i, radius);
      NotNearestAtZero(alpha, mask, w, h, i);
    }
  }

  /** The hues the matte rounds to full transparency: inside the tolerance, or less than half a step of the ramp outside. */
  predicate ClearHue(hd: real, o: Options) {
    hd < o.weakHueTolerance && (hd - o.hueTolerance) * 510.0 < o.weakHueTolerance - o.hueTolerance
  }

  lemma ClearHueIsClear(hd: real, o: Options)
    requires o.hueTolerance <= o.weakHueTolerance
    ensures SoftAlpha(hd, o) == 0 <==> ClearHue(hd, o)
  {
    if o.hueTolerance < hd < o.weakHueTolerance {
      RampRoundsDown(hd - o.hueTolerance, o.weakHueTolerance - o.hueTolerance);
    }
  }

  lemma RampRoundsDown(a: real, b: real)
    requires 0.0 < a < b
    ensures (a / b * 255.0 + 0.5).Floor == 0 <==> a * 510.0 < b
  {
    RampBelowOne(a, b);
    var q := a / b;
    assert q * 510.0 * b == q * b * 510.0 == a * 510.0;
    BelowOne(q * 510.0, b, a * 510.0);
    assert 0.0 < q * 255.0;
  }

  lemma BelowOne(q: real, b: real, product: real)
    requires b > 0.0 && q * b == product
    ensures q < 1.0 <==> product < b
  {
    if q < 1.0 {
      Scaled(q, 1.0, b);
    } else {
      ScaleUp(q, b);
    }
  }

  /** Every pixel counts: what a band measured from all transparent pixels takes for the backdrop. */
  function Everywhere(n: nat): seq<bool> {
    seq(n, _ => true)
  }

  /** Some pixel outside the backdrop touches it and has a hue the matte makes fully transparent. */
  ghost predicate ClearRimPixel(mask: seq<bool>, hueDiff: seq<real>, w: nat, h: nat, o: Options, i: nat)
    requires w > 0 && |mask| == w * h == |hueDiff|
  {
    i < |mask| && !mask[i] && Touches(mask, w, h, X(i, w), Y(i, w)) && ClearHue(hueDiff[i], o)
  }

  lemma TransparentPixels(mask: seq<bool>, hueDiff: seq<real>, w: nat, h: nat, o: Options, i: nat)
    requires w > 0 && |mask| == w * h == |hueDiff| && o.hueTolerance <= o.weakHueTolerance && i < |mask|
    ensures Alphas(mask, hueDiff, w, h, o)[i] == 0 <==> mask[i] || ClearRimPixel(mask, hueDiff, w, h, o, i)
  {
    ClearHueIsClear(hueDiff[i], o);
    assert Alphas(mask, hueDiff, w, h, o)[i] == AlphaAt(mask, hueDiff, w, h, o, i);
  }

  lemma SameSeedsSameNearest(alpha: seq<nat>, mask: seq<bool>, all: seq<bool>, w: nat, i: nat, d: nat)
    requires w > 0
    requires forall j: nat :: j < |alpha| ==> (EdgeBand.IsSeed(alpha, mask, j) <==> EdgeBand.IsSeed(alpha, all, j))
    ensures EdgeBand.Nearest(alpha, mask, w, i, d) <==> EdgeBand.Nearest(alpha, all, w, i, d)
  {
    forall e: int | d - 1 <= e <= d
      ensures EdgeBand.SeedWithin(alpha, mask, w, i, e) <==> EdgeBand.SeedWithin(alpha, all, w, i, e)
    {
      if EdgeBand.SeedWithin(alpha, mask, w, i, e) {
        var s :| EdgeBand.IsSeed(alpha, mask, s) && Manhattan(i, s, w) <= e;
        assert EdgeBand.IsSeed(alpha, all, s);
      }
      if EdgeBand.SeedWithin(alpha, all, w, i, e) {
        var s :| EdgeBand.IsSeed(alpha, all, s) && Manhattan(i, s, w) <= e;
        assert EdgeBand.IsSeed(alpha, mask, s);
      }
    }
  }

  lemma SameSeedsSameBand(alpha: seq<nat>, mask: seq<bool>, all: seq<bool>, w: nat, radius: int, edge: seq<int>)
    requires w > 0 && EdgeBand.IsBand(alpha, mask, w, radius, edge)
    requires forall i: nat :: i < |alpha| ==> (EdgeBand.IsSeed(alpha, mask, i) <==> EdgeBand.IsSeed(alpha, all, i))
    ensures EdgeBand.IsBand(alpha, all, w, radius, edge)
  {
    forall i: nat | i < |edge| ensures 0 <= edge[i] && EdgeBand.InBand(alpha, all, w, radius, i, edge[i]) {
      assert EdgeBand.InBand(alpha, mask, w, radius, i, edge[i]);
      SameSeedsSameNearest(alpha, mask, all, w, i, edge[i]);
      forall d: nat ensures EdgeBand.Nearest(alpha, all, w, i, d) ==> EdgeBand.Nearest(alpha, mask, w, i, d) {
        SameSeedsSameNearest(alpha, mask, all, w, i, d);
      }
    }
  }

  /** At a clear rim pixel the band says 1, where the distance to the nearest transparent pixel is 0. */
  lemma ClearRimPixelMarked(mask: seq<bool>, hueDiff: seq<real>, w: nat, h: nat, o: Options, edge: seq<int>,
                            every: seq<int>, i: nat)
    requires w > 0 && |mask| == w * h == |hueDiff| && o.hueTolerance <= o.weakHueTolerance
    requires o.edgeDespillRadius >= 1 && ClearRimPixel(mask, hueDiff, w, h, o, i)
    requires EdgeBand.IsBand(Alphas(mask, hueDiff, w, h, o), mask, w, o.edgeDespillRadius, edge)
    requires EdgeBand.IsBand(Alphas(mask, hueDiff, w, h, o), Everywhere(|mask|), w, o.edgeDespillRadius, every)
    ensures edge[i] == 1 && every[i] == 0
  {
    var alpha := Alphas(mask, hueDiff, w, h, o);
    TransparentPixels(mask, hueDiff, w, h, o, i);
    TouchesIsAdjacent(mask, w, h, i);
    var n: nat :| n < |mask| && Manhattan(i, n, w) == 1 && mask[n];
    TransparentPixels(mask, hueDiff, w, h, o, n);
    assert EdgeBand.IsSeed(alpha, mask, n) && EdgeBand.IsSeed(alpha, Everywhere(|mask|), i);
    assert EdgeBand.SeedWithin(alpha, mask, w, i, 1);
    BandPositive(alpha, mask, w, h, o.edgeDespillRadius, edge, i);
    BandPositive(alpha, Everywhere(|mask|), w, h, o.edgeDespillRadius, every, i);
    assert EdgeBand.InBand(alpha, mask, w, o.edgeDespillRadius, i, edge[i]);
  }

  /**
   * The band is the distance to the nearest transparent pixel, as its comment says, exactly
   * when no pixel that touches the backdrop from outside has a hue so near the key that the
   * matte makes it transparent as well (or when no band is asked for).
   */
  lemma BandMeasuresTransparent(mask: seq<bool>, hueDiff: seq<real>, w: nat, h: nat, o: Options, edge: seq<int>)
    requires w > 0 && |mask| == w * h == |hueDiff| && o.hueTolerance <= o.weakHueTolerance
    requires EdgeBand.IsBand(Alphas(mask, hueDiff, w, h, o), mask, w, o.edgeDespillRadius, edge)
    ensures EdgeBand.IsBand(Alphas(mask, hueDiff, w, h, o), Everywhere(|mask|), w, o.edgeDespillRadius, edge)
       <==> o.edgeDespillRadius < 1 || forall i: nat :: !ClearRimPixel(mask, hueDiff, w, h, o, i)
  {
    var alpha, all := Alphas(mask, hueDiff, w, h, o), Everywhere(|mask|);
    if o.edgeDespillRadius < 1 {
      forall i: nat | i < |edge| ensures 0 <= edge[i] && EdgeBand.InBand(alpha, all, w, o.edgeDespillRadius, i, edge[i]) {
        assert EdgeBand.InBand(alpha, mask, w, o.edgeDespillRadius, i, edge[i]);
      }
    } else if i: nat :| ClearRimPixel(mask, hueDiff, w, h, o, i) {
      if EdgeBand.IsBand(alpha, all, w, o.edgeDespillRadius, edge) {
        ClearRimPixelMarked(mask, hueDiff, w, h, o, edge, edge, i);
      }
    } else {
      forall i: nat | i < |alpha| ensures EdgeBand.IsSeed(alpha, mask, i) <==> EdgeBand.IsSeed(alpha, all, i) {
        TransparentPixels(mask, hueDiff, w, h, o, i);
      }
      SameSeedsSameBand(alpha, mask, all, w, o.edgeDespillRadius, edge);
    }
  }

  /** The options the platform keys with. */
  function DefaultOptions(): Options {
    Options(25.0, 55.0, 25.0, 12.0, 45.0, 0.5, 0.02, 35.0, 0.03, 0.85, 1.0, 2)
  }

  lemma FourCounts(p: nat -> bool)
    ensures Count(4, p) == (if p(0) then 1 else 0) + (if p(1) then 1 else 0) + (if p(2) then 1 else 0) + (if p(3) then 1 else 0)
  {
    assert Count(1, p) == (if p(0) then 1 else 0);
    assert Count(2, p) == Count(1, p) + (if p(1) then 1 else 0);
    assert Count(3, p) == Count(2, p) + (if p(2) then 1 else 0);
  }

  /**
   * Four pixels in a row, keyed with the default options: two of the backdrop, a faint rim of the
   * same hue, and a faint subject of the opposite one. Chroma (60, 80) twice, (3, 4) and (-3, -4)
   * make such an image, the key being the hue of its border.
   */
  ghost predicate FaintRim(hueDiff: seq<real>, magnitude: seq<real>, cls: seq<Class>, mask: seq<bool>, alpha: seq<nat>, o: Options) {
    && hueDiff == [0.0, 0.0, 0.0, 180.0] && magnitude == [100.0, 100.0, 5.0, 5.0] && o == DefaultOptions()
    && mask == [true, true, false, false] && cls == Classes(hueDiff, magnitude, o) && alpha == Alphas(mask, hueDiff, 4, 1, o)
  }

  lemma FaintRimClasses(hueDiff: seq<real>, magnitude: seq<real>, cls: seq<Class>, mask: seq<bool>, alpha: seq<nat>, o: Options)
    requires FaintRim(hueDiff, magnitude, cls, mask, alpha, o)
    ensures cls == [Strong, Strong, Subject, Subject]
  {
    assert forall i :: 0 <= i < 4 ==> cls[i] == ClassOf(hueDiff[i], magnitude[i], o);
  }

  lemma FaintRimTouches(mask: seq<bool>)
    requires mask == [true, true, false, false]
    ensures Touches(mask, 4, 1, X(2, 4), Y(2, 4)) && !Touches(mask, 4, 1, X(3, 4), Y(3, 4))
  {
    assert X(2, 4) == 2 && Y(2, 4) == 0 && X(3, 4) == 3 && Y(3, 4) == 0;
    assert MaskAt(mask, 4, 1, 1, 0) && !MaskAt(mask, 4, 1, 2, 0);
  }

  lemma FaintRimAlphas(hueDiff: seq<real>, mask: seq<bool>, alpha: seq<nat>, o: Options)
    requires |hueDiff| == 4 && hueDiff[2] <= o.hueTolerance < o.weakHueTolerance && mask == [true, true, false, false]
    requires alpha == Alphas(mask, hueDiff, 4, 1, o)
    ensures alpha == [0, 0, 0, 255] && ClearRimPixel(mask, hueDiff, 4, 1, o, 2)
  {
    FaintRimTouches(mask);
    assert ClearRimPixel(mask, hueDiff, 4, 1, o, 2);
    TransparentPixels(mask, hueDiff, 4, 1, o, 0);
    TransparentPixels(mask, hueDiff, 4, 1, o, 1);
    TransparentPixels(mask, hueDiff, 4, 1, o, 2);
    UntouchedIsOpaque(mask, hueDiff, 4, 1, o, 3);
  }

  lemma UntouchedIsOpaque(mask: seq<bool>, hueDiff: seq<real>, w: nat, h: nat, o: Options, i: nat)
    requires w > 0 && |mask| == w * h == |hueDiff| && i < |mask| && !mask[i] && !Touches(mask, w, h, X(i, w), Y(i, w))
    ensures Alphas(mask, hueDiff, w, h, o)[i] == 255
  {}

  lemma FaintRimBackdrop(cls: seq<Class>, mask: seq<bool>)
    requires cls == [Strong, Strong, Subject, Subject] && mask == [true, true, false, false]
    ensures IsBackdrop(cls, 4, 1, mask)
  {
    SeedReached(cls, 4, 1, 0);
    SeedReached(cls, 4, 1, 1);
  }

  lemma FaintRimCounts(cls: seq<Class>, hueDiff: seq<real>, mask: seq<bool>, alpha: seq<nat>, o: Options)
    requires cls == [Strong, Strong, Subject, Subject] && |hueDiff| == 4
    requires mask == [true, true, false, false] && alpha == [0, 0, 0, 255]
    ensures Evidence(cls, hueDiff, mask, alpha, 4, 1, o) == Report(0.5, 0.0, 0.0, 0, 0, 4)
    ensures Count(4, Transparent(alpha)) == 3
  {
    FourCounts(Transparent(alpha));
    FaintRimBorder(cls, mask);
    FourCounts(Opaque(alpha));
    FourCounts(OpaqueNear(cls, hueDiff, alpha, o));
  }

  lemma FaintRimBorder(cls: seq<Class>, mask: seq<bool>)
    requires cls == [Strong, Strong, Subject, Subject] && mask == [true, true, false, false]
    ensures Count(4, Border(4, 1)) == 4 && Count(4, BorderKeyed(mask, 4, 1)) == 2
    ensures Count(4, Interior(4, 1)) == 0 && Count(4, InteriorKeyed(cls, mask, 4, 1)) == 0
  {
    FourCounts(BorderKeyed(mask, 4, 1));
    FourCounts(Border(4, 1));
    FourCounts(Interior(4, 1));
    FourCounts(InteriorKeyed(cls, mask, 4, 1));
  }

  lemma NearestIsMarked(alpha: seq<nat>, mask: seq<bool>, w: nat, radius: int, edge: seq<int>, i: nat, d: nat)
    requires w > 0 && i < |alpha| && EdgeBand.IsBand(alpha, mask, w, radius, edge)
    requires 0 < d <= radius && EdgeBand.Nearest(alpha, mask, w, i, d)
    ensures edge[i] == d
  {
    assert EdgeBand.InBand(alpha, mask, w, radius, i, edge[i]);
    assert edge[i] != 0;
  }

  lemma FaintRimBand(alpha: seq<nat>, mask: seq<bool>, edge: seq<int>, i: nat)
    requires alpha == [0, 0, 0, 255] && mask == [true, true, false, false] && 2 <= i < 4
    requires EdgeBand.IsBand(alpha, mask, 4, 2, edge)
    ensures edge[i] == i - 1
  {
    assert EdgeBand.IsSeed(alpha, mask, 1) && Manhattan(i, 1, 4) == i - 1;
    assert EdgeBand.SeedWithin(alpha, mask, 4, i, i - 1);
    forall s: nat | EdgeBand.IsSeed(alpha, mask, s) ensures Manhattan(i, s, 4) > i - 2 {
      assert s == 0 || s == 1;
    }
    NearestIsMarked(alpha, mask, 4, 2, edge, i, i - 1);
  }

  lemma FaintRimKeyed(cls: seq<Class>, hueDiff: seq<real>, mask: seq<bool>, alpha: seq<nat>, o: Options, out: Outcome)
    requires cls == [Strong, Strong, Subject, Subject] && |hueDiff| == 4 && o == DefaultOptions()
    requires mask == [true, true, false, false] && alpha == [0, 0, 0, 255]
    requires Judged(out, Evidence(cls, hueDiff, mask, alpha, 4, 1, o), mask, alpha, 4, o)
    ensures out.Keyed? && out.alpha == alpha && |out.edge| == 4 && out.edge[2] == 1 && out.edge[3] == 2
    ensures EdgeBand.IsBand(alpha, mask, 4, 2, out.edge)
  {
    FaintRimCounts(cls, hueDiff, mask, alpha, o);
    FaintRimBand(alpha, mask, out.edge, 2);
    FaintRimBand(alpha, mask, out.edge, 3);
  }

  /**
   * The gates let such an image through, and its band is not the one the comment describes: the
   * rim pixel is as transparent as the backdrop, yet counts as one pixel away from it.
   */
  lemma FaintRimMisjudged(hueDiff: seq<real>, magnitude: seq<real>, cls: seq<Class>, mask: seq<bool>, alpha: seq<nat>,
                          o: Options, out: Outcome, every: seq<int>)
    requires FaintRim(hueDiff, magnitude, cls, mask, alpha, o)
    requires Judged(out, Evidence(cls, hueDiff, mask, alpha, 4, 1, o), mask, alpha, 4, o)
    requires EdgeBand.IsBand(alpha, Everywhere(4), 4, o.edgeDespillRadius, every)
    ensures IsBackdrop(cls, 4, 1, mask)
    ensures out.Keyed? && out.alpha == [0, 0, 0, 255] && |out.edge| == 4 == |every|
    ensures out.edge[2] == 1 && every[2] == 0
  {
    FaintRimClasses(hueDiff, magnitude, cls, mask, alpha, o);
    FaintRimAlphas(hueDiff, mask, alpha, o);
    FaintRimBackdrop(cls, mask);
    FaintRimKeyed(cls, hueDiff, mask, alpha, o, out);
    ClearRimPixelMarked(mask, hueDiff, 4, 1, o, out.edge, every, 2);
  }

  lemma WeightPositive(alpha: nat, edge: int, o: Options)
    requires alpha <= 255 && o.despillStrength > 0.0 && 0 <= edge && (edge > 0 ==> edge <= o.edgeDespillRadius)
    ensures 0.0 <= WeightAt(alpha, edge, o) <= 1.0
    ensures WeightAt(alpha, edge, o) > 0.0 <==> alpha < 255 || edge > 0
  {
    if alpha == 255 && edge > 1 {
      RampBelowOne((edge - 1) as real, o.edgeDespillRadius as real);
    }
  }

  /** Despill touches exactly the pixels that lost opacity or lie within the radius of the backdrop. */
  lemma DespillBand(cls: seq<Class>, mask: seq<bool>, hueDiff: seq<real>, w: nat, h: nat, o: Options,
                    edge: seq<int>, i: nat)
    requires w > 0 && |cls| == w * h == |hueDiff| && IsBackdrop(cls, w, h, mask) && i < |cls|
    requires EdgeBand.IsBand(Alphas(mask, hueDiff, w, h, o), mask, w, o.edgeDespillRadius, edge)
    requires o.despillStrength > 0.0
    ensures WeightAt(Alphas(mask, hueDiff, w, h, o)[i], edge[i], o) > 0.0 <==>
              || Alphas(mask, hueDiff, w, h, o)[i] < 255
              || exists n: nat :: n < |cls| && Reached(cls, w, h, n) && Manhattan(i, n, w) <= o.edgeDespillRadius
  {
    var alpha := Alphas(mask, hueDiff, w, h, o);
    BandPositive(alpha, mask, w, h, o.edgeDespillRadius, edge, i);
    WeightPositive(alpha[i], edge[i], o);
    forall n: nat | n < |cls| ensures EdgeBand.IsSeed(alpha, mask, n) <==> Reached(cls, w, h, n) {
      BandMeasuresBackdrop(cls, mask, hueDiff, w, h, o, n);
    }
  }

  lemma NotNearestAtZero(alpha: seq<nat>, mask: seq<bool>, w: nat, h: nat, i: nat)
    requires w > 0 && |alpha| == w * h && i < |alpha| && !EdgeBand.IsSeed(alpha, mask, i)
    ensures !EdgeBand.Nearest(alpha, mask, w, i, 0)
  {
    if s :| EdgeBand.IsSeed(alpha, mask, s) && Manhattan(i, s, w) <= 0 {
      SamePosition(i, s, w, h);
    }
  }

  // The passes ------------------------------------------------------------------------

  method Classify(hueDiff: seq<real>, magnitude: seq<real>, o: Options) returns (cls: array<Class>)
    requires |hueDiff| == |magnitude|
    ensures fresh(cls) && cls[..] == Classes(hueDiff, magnitude, o)
  {
    cls := new Class[|hueDiff|](_ => Subject);
    var i := 0;
    while i < |hueDiff|
      invariant 0 <= i <= |hueDiff|
      invariant forall j :: 0 <= j < i ==> cls[j] == ClassOf(hueDiff[j], magnitude[j], o)
      invariant forall j :: i <= j < |hueDiff| ==> cls[j] == Subject
    {
      if hueDiff[i] <= o.hueTolerance && magnitude[i] >= o.minChroma {
        cls[i] := Strong;
      } else if hueDiff[i] <= o.weakHueTolerance && magnitude[i] >= o.weakMinChroma
                && (o.weakMaxChroma <= 0.0 || magnitude[i] <= o.weakMaxChroma) {
        cls[i] := Weak;
      }
      i := i + 1;
    }
  }

  method CountKeyed(cls: seq<Class>, mask: seq<bool>, w: nat, h: nat)
    returns (borderKeyed: nat, borderTotal: nat, interiorKeyed: nat, interiorTotal: nat)
    requires w > 0 && |cls| == w * h == |mask|
    ensures borderKeyed == Count(|mask|, BorderKeyed(mask, w, h)) && borderTotal == Count(|mask|, Border(w, h))
    ensures interiorKeyed == Count(|mask|, InteriorKeyed(cls, mask, w, h)) && interiorTotal == Count(|mask|, Interior(w, h))
  {
    borderKeyed, borderTotal, interiorKeyed, interiorTotal := 0, 0, 0, 0;
    var i: nat := 0;
    while i < |mask|
      invariant i <= |mask|
      invariant borderKeyed == Count(i, BorderKeyed(mask, w, h)) && borderTotal == Count(i, Border(w, h))
      invariant interiorKeyed == Count(i, InteriorKeyed(cls, mask, w, h)) && interiorTotal == Count(i, Interior(w, h))
    {
      if OnBorder(i, w, h) {
        borderTotal := borderTotal + 1;
        if mask[i] {
          borderKeyed := borderKeyed + 1;
        }
      } else {
        interiorTotal := interiorTotal + 1;
        if cls[i] == Strong && !mask[i] {
          interiorKeyed := interiorKeyed + 1;
        }
      }
      i := i + 1;
    }
  }

  method Matte(mask: seq<bool>, hueDiff: seq<real>, w: nat, h: nat, o: Options) returns (alpha: array<nat>)
    requires w > 0 && |mask| == w * h == |hueDiff|
    ensures fresh(alpha) && alpha[..] == Alphas(mask, hueDiff, w, h, o)
  {
    alpha := new nat[|mask|](_ => 255);
    var i: nat := 0;
    while i < |mask|
      invariant i <= |mask|
      invariant forall j: nat :: j < i ==> alpha[j] == AlphaAt(mask, hueDiff, w, h, o, j)
      invariant forall j :: i <= j < |mask| ==> alpha[j] == 255
    {
      if mask[i] {
        alpha[i] := 0;
      } else if Touches(mask, w, h, i % w, i / w) && hueDiff[i] < o.weakHueTolerance {
        alpha[i] := SoftAlpha(hueDiff[i], o);
      }
      i := i + 1;
    }
  }

  method CountNear(cls: seq<Class>, hueDiff: seq<real>, alpha: seq<nat>, o: Options) returns (near: nat, total: nat)
    requires |cls| == |hueDiff| == |alpha|
    ensures near == Count(|alpha|, OpaqueNear(cls, hueDiff, alpha, o)) && total == Count(|alpha|, Opaque(alpha))
  {
    near, total := 0, 0;
    var i: nat := 0;
    while i < |alpha|
      invariant i <= |alpha|
      invariant near == Count(i, OpaqueNear(cls, hueDiff, alpha, o)) && total == Count(i, Opaque(alpha))
    {
      if alpha[i] == 255 {
        total := total + 1;
        if hueDiff[i] <= o.dangerHueTolerance && cls[i] != Subject {
          near := near + 1;
        }
      }
      i := i + 1;
    }
  }

  method CountAlpha(alpha: seq<nat>) returns (transparent: nat, partial: nat)
    ensures transparent == Count(|alpha|, Transparent(alpha)) && partial == Count(|alpha|, Partial(alpha))
  {
    transparent, partial := 0, 0;
    var i: nat := 0;
    while i < |alpha|
      invariant i <= |alpha|
      invariant transparent == Count(i, Transparent(alpha)) && partial == Count(i, Partial(alpha))
    {
      if alpha[i] == 0 {
        transparent := transparent + 1;
      } else if alpha[i] < 255 {
        partial := partial + 1;
      }
      i := i + 1;
    }
  }

  method Weights(alpha: seq<nat>, edge: seq<int>, o: Options) returns (weight: array<real>)
    requires |alpha| == |edge|
    ensures fresh(weight) && weight.Length == |alpha|
    ensures forall i :: 0 <= i < |alpha| ==> weight[i] == WeightAt(alpha[i], edge[i], o)
  {
    weight := new real[|alpha|](_ => 0.0);
    var i := 0;
    while i < |alpha|
      invariant 0 <= i <= |alpha|
      invariant forall j :: 0 <= j < i ==> weight[j] == WeightAt(alpha[j], edge[j], o)
    {
      weight[i] := WeightAt(alpha[i], edge[i], o);
      i := i + 1;
    }
  }

  /** The whole pipeline; `mask` is the flooded backdrop the outcome was judged on. */
  method Key(hueDiff: seq<real>, magnitude: seq<real>, w: int, h: int, o: Options)
    returns (out: Outcome, ghost mask: seq<bool>)
    requires w > 0 && h > 0 ==> |hueDiff| == |magnitude| == w * h
    ensures out.EmptyImage? <==> w <= 0 || h <= 0
    ensures out.BadTolerance? <==> w > 0 && h > 0 && o.weakHueTolerance < o.hueTolerance
    ensures w > 0 && h > 0 && o.weakHueTolerance >= o.hueTolerance ==>
              && IsBackdrop(Classes(hueDiff, magnitude, o), w, h, mask)
              && Judged(out, Evidence(Classes(hueDiff, magnitude, o), hueDiff, mask,
                                      Alphas(mask, hueDiff, w, h, o), w, h, o),
                        mask, Alphas(mask, hueDiff, w, h, o), w, o)
  {
    mask := [];
    if w <= 0 || h <= 0 {
      return EmptyImage, mask;
    }
    if o.weakHueTolerance < o.hueTolerance {
      return BadTolerance, mask;
    }
    var classes := Classify(hueDiff, magnitude, o);
    var cls := classes[..];
    var flooded := FloodBackdrop(cls, w, h);
    var backdrop := flooded[..];
    mask := backdrop;
    var borderKeyed, borderTotal, interiorKeyed, interiorTotal := CountKeyed(cls, backdrop, w, h);
    var matte := Matte(backdrop, hueDiff, w, h, o);
    var alpha := matte[..];
    var near, solid := CountNear(cls, hueDiff, alpha, o);
    var report := Report(Fraction(borderKeyed, borderTotal), Fraction(interiorKeyed, interiorTotal),
                         Fraction(near, solid), 0, 0, |backdrop|);
    if report.borderCoverage < o.minBorderCoverage {
      return BackdropNotFound(report), mask;
    }
    if report.interiorKeyFraction > o.maxInteriorKeyFraction {
      return SubjectContainsKey(report), mask;
    }
    if o.maxSubjectNearKeyFraction > 0.0 && report.subjectNearKeyFraction > o.maxSubjectNearKeyFraction {
      return SubjectNearKey(report), mask;
    }
    var transparent, partial := CountAlpha(alpha);
    if o.maxTransparentFraction > 0.0 && Fraction(transparent, |alpha|) > o.maxTransparentFraction {
      return SubjectNearKey(report.(transparentPixels := transparent)), mask;
    }
    var dist := EdgeBand.EdgeDistance(alpha, backdrop, w, h, o.edgeDespillRadius);
    var edge := dist[..];
    var weights := Weights(alpha, edge, o);
    out := Keyed(report.(transparentPixels := transparent, partialPixels := partial), alpha, edge, weights[..]);
  }
}
