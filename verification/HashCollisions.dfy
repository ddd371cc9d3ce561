/**
 * Which render requests share a preimage. Free text moves between two neighbouring identifiers
 * exactly where one of them contains the text that separates them; requests whose identifiers
 * stay on one line share theirs with no other request.
 */
module HashCollisions {
  import opened Rows
  import opened LabelledText
  import opened HashPreimage
  import opened CutText

  // Frames ----------------------------------------------------------------------------

  lemma PlainLine(p: string, w: string, name: string, value: string)
    ensures p + w + "\n" + Line(Field(name, value)) == p + (w + Cut(name) + value) + "\n"
  {
    var s := p + w + "\n" + (name + "=" + value + "\n");
    assert s == p + (w + ("\n" + name + "=") + value) + "\n";
  }

  lemma HeldLines(p: string, w: string, before: string, held: string, name: string, value: string)
    ensures p + w + "\n" + Line(Field(before, held)) + Line(Field(name, value))
         == p + (w + Mark(Held(before, name), held) + value) + "\n"
  {
    PlainLine(p, w, before, held);
    PlainLine(p, w + Cut(before) + held, name, value);
    Grouped(w, Cut(before), held, Cut(name));
  }

  lemma Grouped(w: string, a: string, b: string, c: string)
    ensures w + a + b + c == w + (a + b + c)
  {}

  /** The first j fields of a list are the first k marks of a cutting, in their frame. */
  ghost predicate Framed(p: string, x: Cutting, k: nat, fs: seq<Field>, j: nat) {
    j <= |fs| && |x.free| == |x.marks| + 1 && k <= |x.marks| && Render(fs[..j]) == p + Weave(x, k) + "\n"
  }

  lemma PlainStep(p: string, x: Cutting, k: nat, fs: seq<Field>, j: nat, name: string)
    requires Framed(p, x, k, fs, j) && j < |fs| && k < |x.marks|
    requires fs[j] == Field(name, x.free[k + 1]) && x.marks[k] == Cut(name)
    ensures Framed(p, x, k + 1, fs, j + 1)
  {
    PrefixLine(fs, j);
    PlainLine(p, Weave(x, k), name, x.free[k + 1]);
  }

  lemma HeldStep(p: string, x: Cutting, k: nat, fs: seq<Field>, j: nat, before: string, held: string, name: string)
    requires Framed(p, x, k, fs, j) && j + 1 < |fs| && k < |x.marks|
    requires fs[j] == Field(before, held) && fs[j + 1] == Field(name, x.free[k + 1])
    requires x.marks[k] == Mark(Held(before, name), held)
    ensures Framed(p, x, k + 1, fs, j + 2)
  {
    PrefixLine(fs, j);
    PrefixLine(fs, j + 1);
    HeldLines(p, Weave(x, k), before, held, name, x.free[k + 1]);
  }

  lemma FirstFields(version: Field, name: string, x: Cutting, fs: seq<Field>)
    requires |fs| >= 2 && fs[0] == version && |x.free| == |x.marks| + 1 && fs[1] == Field(name, x.free[0])
    ensures Framed(Line(version) + name + "=", x, 0, fs, 2)
  {
    PrefixLine(fs, 0);
    PrefixLine(fs, 1);
    var p, v := Line(version), x.free[0];
    assert p + (name + "=" + v + "\n") == p + name + "=" + v + "\n";
  }

  // Artifacts -------------------------------------------------------------------------

  function ArtifactFree(a: ArtifactInput): seq<string> {
    [a.tenantId, a.worldId, a.artifactId, a.styleProfileId, a.qualityTier, a.variantKey]
  }

  function ArtifactGaps(n: Names): seq<Gap> {
    [Plain(n.worldId), Plain(n.artifactId), Held(n.description, n.styleProfileId),
     Held(n.styleProfileVersion, n.qualityTier), Plain(n.variantKey)]
  }

  function ArtifactHeld(a: ArtifactInput): seq<string> {
    ["", "", a.description, VersionText(a.styleProfileVersion), ""]
  }

  function ArtifactCutting(n: Names, a: ArtifactInput): Cutting {
    Cutting(ArtifactFree(a), Marks(ArtifactGaps(n), ArtifactHeld(a)))
  }

  function ArtifactFrame(n: Names): string {
    Line(Field(n.v, ARTIFACT_HASH_VERSION)) + n.tenantId + "="
  }

  lemma ArtifactIsCut(n: Names, a: ArtifactInput)
    ensures Render(ArtifactFields(n, a)) == ArtifactFrame(n) + Woven(ArtifactCutting(n, a)) + "\n"
  {
    var p, x, fs := ArtifactFrame(n), ArtifactCutting(n, a), ArtifactFields(n, a);
    FirstFields(Field(n.v, ARTIFACT_HASH_VERSION), n.tenantId, x, fs);
    PlainStep(p, x, 0, fs, 2, n.worldId);
    PlainStep(p, x, 1, fs, 3, n.artifactId);
    HeldStep(p, x, 2, fs, 4, n.description, a.description, n.styleProfileId);
    HeldStep(p, x, 3, fs, 6, n.styleProfileVersion, VersionText(a.styleProfileVersion), n.qualityTier);
    PlainStep(p, x, 4, fs, 8, n.variantKey);
    assert fs[..9] == fs;
  }

  ghost predicate ArtifactHolds(k: nat, held: string) {
    if k == 2 then Normalize(held) == held
    else if k == 3 then exists v: Option<int32> :: VersionText(v) == held
    else held == ""
  }

  lemma ArtifactGapsProper(n: Names)
    requires CleanNames(n) && DistinctNames(n)
    ensures AllProper(ArtifactGaps(n))
  {}

  lemma ArtifactHeldFits(k: nat, held: string, n: Names)
    requires k < 5 && ArtifactHolds(k, held)
    ensures Fits(ArtifactGaps(n)[k], held)
  {
    if k == 2 {
      NormalizeIsOneLine(held);
    } else if k == 3 {
      var v: Option<int32> :| VersionText(v) == held;
      DecimalIsClean(v.GetOr(0));
    }
  }

  /** An artifact as the hash sees it: its description in normal form, its variant named. */
  predicate Canonical(a: ArtifactInput) {
    Normalize(a.description) == a.description && a.variantKey != ""
  }

  lemma CanonicalIsCanonical(x: ArtifactInput)
    ensures Canonical(CanonicalArtifact(x))
    ensures Canonical(x) ==> CanonicalArtifact(x) == x
  {
    NormalizeIsCanonical(x.description, x.description);
  }

  lemma CanonicalHolds(a: ArtifactInput, k: nat)
    requires Canonical(a) && k < 5
    ensures ArtifactHolds(k, ArtifactHeld(a)[k])
  {}

  lemma CuttingDeterminesArtifact(n: Names, a: ArtifactInput, b: ArtifactInput)
    requires CleanNames(n) && DistinctNames(n) && Canonical(a) && Canonical(b)
    requires ArtifactCutting(n, a) == ArtifactCutting(n, b)
    ensures a == b
  {
    var f, g := ArtifactFree(a), ArtifactFree(b);
    assert f[0] == g[0] && f[1] == g[1] && f[2] == g[2] && f[3] == g[3] && f[4] == g[4] && f[5] == g[5];
    ArtifactGapsProper(n);
    forall k: nat | k < 5 ensures ArtifactHeld(a)[k] == ArtifactHeld(b)[k] {
      CanonicalHolds(a, k);
      CanonicalHolds(b, k);
      ArtifactHeldFits(k, ArtifactHeld(a)[k], n);
      ArtifactHeldFits(k, ArtifactHeld(b)[k], n);
      assert ArtifactCutting(n, a).marks[k] == ArtifactCutting(n, b).marks[k];
      MarkHolds(ArtifactGaps(n)[k], ArtifactHeld(a)[k], ArtifactHeld(b)[k]);
    }
    assert ArtifactHeld(a)[2] == ArtifactHeld(b)[2] && ArtifactHeld(a)[3] == ArtifactHeld(b)[3];
    VersionInjective(a.styleProfileVersion, b.styleProfileVersion);
  }

  lemma ArtifactsCompare(n: Names, a: ArtifactInput, b: ArtifactInput)
    requires CleanNames(n) && DistinctNames(n) && Canonical(a) && Canonical(b)
    ensures Comparable(ArtifactCutting(n, a), ArtifactCutting(n, b), 5)
  {
    ArtifactGapsProper(n);
    forall k: nat | k < 5 ensures Exclusive(ArtifactCutting(n, a).marks[k], ArtifactCutting(n, b).marks[k]) {
      CanonicalHolds(a, k);
      CanonicalHolds(b, k);
      ArtifactHeldFits(k, ArtifactHeld(a)[k], n);
      ArtifactHeldFits(k, ArtifactHeld(b)[k], n);
      MarksExclude(ArtifactGaps(n)[k], ArtifactHeld(a)[k], ArtifactHeld(b)[k]);
    }
  }

  /**
   * Two neighbouring free fields are ambiguous when one of them contains what may separate
   * them; at the very end of the variant key it does not count, since no variant key is empty.
   */
  ghost predicate ArtifactMoves(n: Names, a: ArtifactInput, k: nat, held: string) {
    && k < 5 && ArtifactHolds(k, held)
    && (Occurs(Mark(ArtifactGaps(n)[k], held), ArtifactFree(a)[k])
        || exists p, q :: ArtifactFree(a)[k + 1] == p + Mark(ArtifactGaps(n)[k], held) + q && (k == 4 ==> q != ""))
  }

  ghost predicate ArtifactAmbiguous(n: Names, a: ArtifactInput) {
    exists k, held :: ArtifactMoves(n, a, k, held)
  }

  lemma OtherArtifactMoves(n: Names, a: ArtifactInput, b: ArtifactInput)
    requires CleanNames(n) && DistinctNames(n) && Canonical(a) && Canonical(b) && a != b
    requires Woven(ArtifactCutting(n, a)) == Woven(ArtifactCutting(n, b))
    ensures ArtifactAmbiguous(n, a)
  {
    var x, y := ArtifactCutting(n, a), ArtifactCutting(n, b);
    if x == y {
      CuttingDeterminesArtifact(n, a, b);
    }
    ArtifactsCompare(n, a, b);
    TwoCuttings(x, y, 5);
    var k: nat :| Strays(x, y, 5, k);
    CanonicalHolds(b, k);
    assert y.marks[k] == Mark(ArtifactGaps(n)[k], ArtifactHeld(b)[k]);
    assert ArtifactMoves(n, a, k, ArtifactHeld(b)[k]);
  }

  /** The artifact with other free fields, and with another field held at mark k. */
  ghost function WithArtifact(a: ArtifactInput, free: seq<string>, k: nat, held: string): ArtifactInput
    requires |free| == 6 && k < 5 && ArtifactHolds(k, held)
  {
    ArtifactInput(free[0], free[1], free[2], if k == 2 then held else a.description, free[3],
                  if k == 3 then (var v: Option<int32> :| VersionText(v) == held; v) else a.styleProfileVersion,
                  free[4], free[5])
  }

  lemma WithArtifactCuts(n: Names, a: ArtifactInput, y: Cutting, k: nat, held: string)
    requires Canonical(a) && k < 5 && ArtifactHolds(k, held) && Shaped(y, 5)
    requires y.marks == ArtifactCutting(n, a).marks[k := Mark(ArtifactGaps(n)[k], held)] && y.free[5] != ""
    ensures Canonical(WithArtifact(a, y.free, k, held)) && ArtifactCutting(n, WithArtifact(a, y.free, k, held)) == y
  {
    var b := WithArtifact(a, y.free, k, held);
    assert ArtifactFree(b) == y.free;
    assert ArtifactHeld(b) == ArtifactHeld(a)[k := held];
    assert ArtifactCutting(n, b).marks == y.marks;
  }

  lemma MovedArtifact(n: Names, a: ArtifactInput, k: nat, held: string) returns (b: ArtifactInput)
    requires Canonical(a) && ArtifactMoves(n, a, k, held)
    ensures Canonical(b) && b != a && Woven(ArtifactCutting(n, a)) == Woven(ArtifactCutting(n, b))
  {
    var x, m := ArtifactCutting(n, a), Mark(ArtifactGaps(n)[k], held);
    var y: Cutting;
    if Occurs(m, x.free[k]) {
      var p, q :| x.free[k] == p + m + q;
      y := RecutLeft(x, 5, k, p, m, q);
    } else {
      var p, q :| x.free[k + 1] == p + m + q && (k == 4 ==> q != "");
      y := RecutRight(x, 5, k, p, m, q);
    }
    WithArtifactCuts(n, a, y, k, held);
    b := WithArtifact(a, y.free, k, held);
  }

  lemma SameFrame(p: string, w: string, v: string, q: string)
    ensures p + w + q == p + v + q <==> w == v
  {
    assert |w| == |v| ==> w == (p + w + q)[|p|..|p| + |w|] && v == (p + v + q)[|p|..|p| + |w|];
  }

  lemma SameArtifactPreimage(x: ArtifactInput, y: ArtifactInput)
    ensures ArtifactPreimage(x) == ArtifactPreimage(y)
       <==> Woven(ArtifactCutting(LabelNames(), CanonicalArtifact(x))) == Woven(ArtifactCutting(LabelNames(), CanonicalArtifact(y)))
  {
    var n := LabelNames();
    var a, b := CanonicalArtifact(x), CanonicalArtifact(y);
    ArtifactIsCut(n, a);
    ArtifactIsCut(n, b);
    SameFrame(ArtifactFrame(n), Woven(ArtifactCutting(n, a)), Woven(ArtifactCutting(n, b)), "\n");
  }

  /** Some request that asks for another artifact has the same preimage. */
  ghost predicate ArtifactCollides(x: ArtifactInput) {
    exists y :: ArtifactPreimage(y) == ArtifactPreimage(x) && CanonicalArtifact(y) != CanonicalArtifact(x)
  }

  /**
   * An artifact request shares its preimage with a different one exactly when, of two neighbouring
   * identifiers, one contains the newline and label that separate them.
   */
  lemma ArtifactsCollideExactly(x: ArtifactInput)
    ensures ArtifactCollides(x) <==> ArtifactAmbiguous(LabelNames(), CanonicalArtifact(x))
  {
    var n, a := LabelNames(), CanonicalArtifact(x);
    NamesAreClean();
    NamesAreDistinct();
    CanonicalIsCanonical(x);
    if ArtifactAmbiguous(n, a) {
      var k: nat, held :| ArtifactMoves(n, a, k, held);
      var b := MovedArtifact(n, a, k, held);
      CanonicalIsCanonical(b);
      SameArtifactPreimage(b, x);
    }
    if y :| ArtifactPreimage(y) == ArtifactPreimage(x) && CanonicalArtifact(y) != CanonicalArtifact(x) {
      CanonicalIsCanonical(y);
      SameArtifactPreimage(x, y);
      OtherArtifactMoves(n, a, CanonicalArtifact(y));
    }
  }

  lemma OneLineHidesNothing(gap: Gap, held: string, f: string)
    requires NEWLINE !in f
    ensures forall p, q :: f != p + Mark(gap, held) + q
    ensures !Occurs(Mark(gap, held), f)
  {
    var m := Mark(gap, held);
    assert m[0] == NEWLINE;
    forall p, q ensures f != p + m + q {
      assert (p + m + q)[|p|] == NEWLINE;
    }
  }

  /** A request whose identifiers stay on one line shares its preimage with no other, whatever that contains. */
  lemma ArtifactPreimageInjective(x: ArtifactInput, y: ArtifactInput)
    requires SingleLineArtifact(x)
    ensures ArtifactPreimage(x) == ArtifactPreimage(y) <==> CanonicalArtifact(x) == CanonicalArtifact(y)
  {
    var n, a := LabelNames(), CanonicalArtifact(x);
    ArtifactsCollideExactly(x);
    if k: nat, held :| ArtifactMoves(n, a, k, held) {
      assert NEWLINE !in ArtifactFree(a)[k] && NEWLINE !in ArtifactFree(a)[k + 1];
      OneLineHidesNothing(ArtifactGaps(n)[k], held, ArtifactFree(a)[k]);
      OneLineHidesNothing(ArtifactGaps(n)[k], held, ArtifactFree(a)[k + 1]);
    }
  }

  // Generations -----------------------------------------------------------------------

  function GenerationFree(g: Generation): seq<string> {
    [g.tenantId, g.identityId, g.styleProfileId, g.anchorAssetId] + g.identityAnchors + [g.deriveFrom, g.intent]
  }

  /** The label of the i-th field after the count of m anchors. */
  function AfterCount(n: Names, m: nat, i: nat): string {
    if i < m then n.anchor + Decimal(i) else if i == m then n.deriveFrom else n.intent
  }

  function GenerationGap(n: Names, m: nat, k: nat): Gap {
    if k == 0 then Plain(n.identityId)
    else if k == 1 then Held(n.displayName, n.styleProfileId)
    else if k == 2 then Plain(n.anchorAssetId)
    else if k == 3 then Held(n.anchorCount, AfterCount(n, m, 0))
    else Plain(AfterCount(n, m, k - 3))
  }

  function GenerationGaps(n: Names, m: nat): seq<Gap> {
    seq(m + 5, k requires 0 <= k < m + 5 => GenerationGap(n, m, k))
  }

  function GenerationHeld(m: nat, display: string): seq<string> {
    seq(m + 5, k requires 0 <= k < m + 5 => if k == 1 then display else if k == 3 then Decimal(m) else "")
  }

  function GenerationMarks(n: Names, m: nat, display: string): seq<string> {
    Marks(GenerationGaps(n, m), GenerationHeld(m, display))
  }

  function GenerationCutting(n: Names, g: Generation): Cutting {
    Cutting(GenerationFree(g), GenerationMarks(n, |g.identityAnchors|, g.displayName))
  }

  function GenerationFrame(n: Names): string {
    Line(Field(n.gv, GENERATION_HASH_VERSION)) + n.tenantId + "="
  }

  /** A generation's cutting, position by position. */
  ghost predicate CutsGeneration(n: Names, x: Cutting, g: Generation) {
    var m := |g.identityAnchors|;
    && Shaped(x, m + 5)
    && x.free[0] == g.tenantId && x.free[1] == g.identityId && x.free[2] == g.styleProfileId && x.free[3] == g.anchorAssetId
    && (forall i: nat :: i < m ==> x.free[4 + i] == g.identityAnchors[i])
    && x.free[4 + m] == g.deriveFrom && x.free[5 + m] == g.intent
    && x.marks[0] == Cut(n.identityId) && x.marks[1] == Mark(Held(n.displayName, n.styleProfileId), g.displayName)
    && x.marks[2] == Cut(n.anchorAssetId) && x.marks[3] == Mark(Held(n.anchorCount, AfterCount(n, m, 0)), Decimal(m))
    && (forall i: nat :: 0 < i < m + 2 ==> x.marks[3 + i] == Cut(AfterCount(n, m, i)))
  }

  lemma CuttingCuts(n: Names, g: Generation)
    ensures CutsGeneration(n, GenerationCutting(n, g), g)
  {
    var x, m := GenerationCutting(n, g), |g.identityAnchors|;
    forall i: nat | 0 < i < m + 2 ensures x.marks[3 + i] == Cut(AfterCount(n, m, i)) {
      assert GenerationGap(n, m, 3 + i) == Plain(AfterCount(n, m, i));
    }
  }

  lemma FramedHead(n: Names, g: Generation, x: Cutting, fs: seq<Field>)
    requires CutsGeneration(n, x, g) && ListsGeneration(n, fs, g)
    ensures Framed(GenerationFrame(n), x, 3, fs, 6)
  {
    var p := GenerationFrame(n);
    FirstFields(Field(n.gv, GENERATION_HASH_VERSION), n.tenantId, x, fs);
    PlainStep(p, x, 0, fs, 2, n.identityId);
    HeldStep(p, x, 1, fs, 3, n.displayName, g.displayName, n.styleProfileId);
    PlainStep(p, x, 2, fs, 5, n.anchorAssetId);
  }

  lemma FieldAfterCount(n: Names, g: Generation, x: Cutting, fs: seq<Field>, i: nat)
    requires CutsGeneration(n, x, g) && ListsGeneration(n, fs, g) && i <= |g.identityAnchors| + 1
    ensures fs[7 + i] == Field(AfterCount(n, |g.identityAnchors|, i), x.free[4 + i])
  {
    assert i < |g.identityAnchors| ==> fs[7 + i] == AnchorField(n, g.identityAnchors, i);
  }

  lemma {:induction false} FramedAnchors(n: Names, g: Generation, x: Cutting, fs: seq<Field>, i: nat)
    requires CutsGeneration(n, x, g) && ListsGeneration(n, fs, g) && i <= |g.identityAnchors| + 1
    ensures Framed(GenerationFrame(n), x, 4 + i, fs, 8 + i)
  {
    var p, m := GenerationFrame(n), |g.identityAnchors|;
    FieldAfterCount(n, g, x, fs, i);
    if i == 0 {
      FramedHead(n, g, x, fs);
      HeldStep(p, x, 3, fs, 6, n.anchorCount, Decimal(m), AfterCount(n, m, 0));
    } else {
      FramedAnchors(n, g, x, fs, i - 1);
      PlainStep(p, x, 3 + i, fs, 7 + i, AfterCount(n, m, i));
    }
  }

  /** The end of a generation: two fields that always stay on one line each. */
  function GenerationEnd(n: Names, g: Generation): seq<string> {
    [n.maxMegapixels + "=" + Hundredths(g.megapixels), n.transform + "=" + g.transform]
  }

  function Ended(text: string, end: seq<string>): string
    requires |end| == 2
  {
    text + "\n" + end[0] + "\n" + end[1] + "\n"
  }

  lemma EndLines(t: string, f: Field, g: Field)
    ensures t + "\n" + Line(f) + Line(g) == Ended(t, [f.name + "=" + f.value, g.name + "=" + g.value])
  {}

  lemma LastTwoFields(n: Names, g: Generation, fs: seq<Field>, t: string)
    requires ListsGeneration(n, fs, g) && Render(fs[..|g.identityAnchors| + 9]) == t + "\n"
    ensures Render(fs) == Ended(t, GenerationEnd(n, g))
  {
    var m := |g.identityAnchors|;
    PrefixLine(fs, m + 9);
    PrefixLine(fs, m + 10);
    assert fs[..m + 11] == fs;
    EndLines(t, fs[m + 9], fs[m + 10]);
  }

  lemma GenerationIsCut(n: Names, g: Generation)
    ensures Render(GenerationFields(n, g))
         == Ended(GenerationFrame(n) + Woven(GenerationCutting(n, g)), GenerationEnd(n, g))
  {
    var x, fs := GenerationCutting(n, g), GenerationFields(n, g);
    CuttingCuts(n, g);
    FramedAnchors(n, g, x, fs, |g.identityAnchors| + 1);
    LastTwoFields(n, g, fs, GenerationFrame(n) + Woven(x));
  }

  lemma LastLineNoLonger(a: string, b: string, c: string, d: string)
    requires a + "\n" + b == c + "\n" + d && NEWLINE !in b
    ensures |b| <= |d|
  {
    var s := a + "\n" + b;
    assert |s| == |a| + 1 + |b| == |c| + 1 + |d|;
    assert s[|c|] == NEWLINE;
  }

  lemma LastLine(a: string, b: string, c: string, d: string)
    requires a + "\n" + b == c + "\n" + d && NEWLINE !in b && NEWLINE !in d
    ensures a == c && b == d
  {
    LastLineNoLonger(a, b, c, d);
    LastLineNoLonger(c, d, a, b);
    var s := a + "\n" + b;
    assert a == s[..|a|] && b == s[|a| + 1..] && c == s[..|a|] && d == s[|a| + 1..];
  }

  lemma SameEnded(t: string, e: seq<string>, u: string, f: seq<string>)
    requires |e| == |f| == 2 && Ended(t, e) == Ended(u, f)
    requires NEWLINE !in e[0] && NEWLINE !in e[1] && NEWLINE !in f[0] && NEWLINE !in f[1]
    ensures t == u && e == f
  {
    var p, q := t + "\n" + e[0], u + "\n" + f[0];
    assert p + "\n" + e[1] == Ended(t, e)[..|Ended(t, e)| - 1];
    assert q + "\n" + f[1] == Ended(u, f)[..|Ended(u, f)| - 1];
    LastLine(p, e[1], q, f[1]);
    LastLine(t, e[0], u, f[0]);
  }

  predicate Normal(g: Generation) {
    Normalize(g.displayName) == g.displayName && Normalize(g.transform) == g.transform
  }

  lemma CanonicalIsNormal(x: GenerationInput)
    ensures Normal(CanonicalGeneration(x))
  {
    NormalizeIsCanonical(x.displayName, x.displayName);
    NormalizeIsCanonical(x.transform, x.transform);
  }

  /** Two generations have the same text exactly when their identifiers weave alike and their ends agree. */
  lemma SameGenerationText(n: Names, g: Generation, h: Generation)
    requires CleanNames(n) && Normal(g) && Normal(h)
    ensures Render(GenerationFields(n, g)) == Render(GenerationFields(n, h))
       <==> Woven(GenerationCutting(n, g)) == Woven(GenerationCutting(n, h))
            && g.megapixels == h.megapixels && g.transform == h.transform
  {
    GenerationIsCut(n, g);
    GenerationIsCut(n, h);
    SameFrame(GenerationFrame(n), Woven(GenerationCutting(n, g)), Woven(GenerationCutting(n, h)), "");
    if Render(GenerationFields(n, g)) == Render(GenerationFields(n, h)) {
      EndIsOneLine(n, g);
      EndIsOneLine(n, h);
      SameEnded(GenerationFrame(n) + Woven(GenerationCutting(n, g)), GenerationEnd(n, g),
                GenerationFrame(n) + Woven(GenerationCutting(n, h)), GenerationEnd(n, h));
      SameEndFields(n, g, h);
    }
  }

  lemma EndIsOneLine(n: Names, g: Generation)
    requires CleanNames(n) && Normal(g)
    ensures NEWLINE !in GenerationEnd(n, g)[0] && NEWLINE !in GenerationEnd(n, g)[1]
  {
    NormalizeIsOneLine(g.transform);
    DigitsAreDigits(g.megapixels / 100);
    assert NEWLINE !in Hundredths(g.megapixels);
  }

  lemma SameEndFields(n: Names, g: Generation, h: Generation)
    requires GenerationEnd(n, g) == GenerationEnd(n, h)
    ensures g.megapixels == h.megapixels && g.transform == h.transform
  {
    var e, f := GenerationEnd(n, g), GenerationEnd(n, h);
    SameFrame(n.maxMegapixels + "=", Hundredths(g.megapixels), Hundredths(h.megapixels), "");
    SameFrame(n.transform + "=", g.transform, h.transform, "");
    assert e[0] + "" == f[0] + "" && e[1] + "" == f[1] + "";
    HundredthsInjective(g.megapixels, h.megapixels);
  }

  ghost predicate GenerationHolds(m: nat, k: nat, held: string) {
    if k == 1 then Normalize(held) == held else if k == 3 then held == Decimal(m) else held == ""
  }

  lemma GenerationGapsProper(n: Names, m: nat)
    requires CleanNames(n) && DistinctNames(n)
    ensures AllProper(GenerationGaps(n, m))
  {
    forall k: nat | k < m + 5 ensures Proper(GenerationGap(n, m, k)) {
      if 0 <= k - 3 < m {
        DecimalIsClean(k - 3);
      }
    }
  }

  lemma GenerationHeldFits(n: Names, m: nat, k: nat, held: string)
    requires k < m + 5 && GenerationHolds(m, k, held)
    ensures Fits(GenerationGaps(n, m)[k], held)
  {
    if k == 1 {
      NormalizeIsOneLine(held);
    } else if k == 3 {
      DecimalIsClean(m);
    }
  }

  lemma GenerationsCompare(n: Names, g: Generation, h: Generation, m: nat)
    requires CleanNames(n) && DistinctNames(n) && Normal(g) && Normal(h)
    requires |g.identityAnchors| == |h.identityAnchors| == m
    ensures Comparable(GenerationCutting(n, g), GenerationCutting(n, h), m + 5)
  {
    var c, d := GenerationHeld(m, g.displayName), GenerationHeld(m, h.displayName);
    GenerationGapsProper(n, m);
    forall k: nat | k < m + 5 ensures Exclusive(GenerationCutting(n, g).marks[k], GenerationCutting(n, h).marks[k]) {
      GenerationHeldFits(n, m, k, c[k]);
      GenerationHeldFits(n, m, k, d[k]);
      MarksExclude(GenerationGaps(n, m)[k], c[k], d[k]);
    }
  }

  lemma CuttingDeterminesGeneration(n: Names, g: Generation, h: Generation)
    requires CleanNames(n) && DistinctNames(n) && Normal(g) && Normal(h)
    requires GenerationCutting(n, g) == GenerationCutting(n, h)
    requires g.megapixels == h.megapixels && g.transform == h.transform
    ensures g == h
  {
    var x, m := GenerationCutting(n, g), |g.identityAnchors|;
    assert |GenerationFree(g)| == |GenerationFree(h)|;
    CuttingCuts(n, g);
    CuttingCuts(n, h);
    forall i: nat | i < m ensures g.identityAnchors[i] == h.identityAnchors[i] {
      assert x.free[4 + i] == g.identityAnchors[i];
    }
    assert g.identityAnchors == h.identityAnchors;
    GenerationGapsProper(n, m);
    GenerationHeldFits(n, m, 1, g.displayName);
    GenerationHeldFits(n, m, 1, h.displayName);
    MarkHolds(GenerationGaps(n, m)[1], g.displayName, h.displayName);
  }

  /** Of the free fields around mark k one contains what may separate them. */
  ghost predicate GenerationMoves(n: Names, g: Generation, k: nat, held: string) {
    var m := |g.identityAnchors|;
    && k < m + 5 && GenerationHolds(m, k, held)
    && (Occurs(Mark(GenerationGap(n, m, k), held), GenerationFree(g)[k])
        || Occurs(Mark(GenerationGap(n, m, k), held), GenerationFree(g)[k + 1]))
  }

  /** The identifiers' text can be cut at the labels of another number of anchors. */
  ghost predicate Recounts(n: Names, g: Generation, m: nat, display: string) {
    && m != |g.identityAnchors| && Normalize(display) == display
    && InOrder(Woven(GenerationCutting(n, g)), GenerationMarks(n, m, display), m + 5)
  }

  ghost predicate GenerationAmbiguous(n: Names, g: Generation) {
    (exists k: nat, held :: GenerationMoves(n, g, k, held)) || exists m: nat, display :: Recounts(n, g, m, display)
  }

  lemma OtherGenerationMoves(n: Names, g: Generation, h: Generation, m: nat)
    requires CleanNames(n) && DistinctNames(n) && Normal(g) && Normal(h) && g != h
    requires g.megapixels == h.megapixels && g.transform == h.transform
    requires |g.identityAnchors| == |h.identityAnchors| == m
    requires Woven(GenerationCutting(n, g)) == Woven(GenerationCutting(n, h))
    ensures exists k: nat, held :: GenerationMoves(n, g, k, held)
  {
    var x, y := GenerationCutting(n, g), GenerationCutting(n, h);
    if x == y {
      CuttingDeterminesGeneration(n, g, h);
    }
    GenerationsCompare(n, g, h, m);
    TwoCuttings(x, y, m + 5);
    var k: nat :| Strays(x, y, m + 5, k);
    var held := GenerationHeld(m, h.displayName)[k];
    assert y.marks[k] == Mark(GenerationGap(n, m, k), held);
    assert GenerationMoves(n, g, k, held);
  }

  lemma OtherGenerationRecounts(n: Names, g: Generation, h: Generation)
    requires Normal(h) && |g.identityAnchors| != |h.identityAnchors|
    requires Woven(GenerationCutting(n, g)) == Woven(GenerationCutting(n, h))
    ensures Recounts(n, g, |h.identityAnchors|, h.displayName)
  {
    var m := |h.identityAnchors|;
    WovenInOrder(GenerationCutting(n, h), m + 5, m + 5);
  }

  /** The generation with other free fields, among them m anchors, and another display name. */
  function WithGeneration(g: Generation, m: nat, free: seq<string>, display: string): Generation
    requires |free| == m + 6
  {
    g.(tenantId := free[0], identityId := free[1], displayName := display, styleProfileId := free[2],
       anchorAssetId := free[3], identityAnchors := free[4..4 + m], deriveFrom := free[4 + m], intent := free[5 + m])
  }

  lemma WithGenerationCuts(n: Names, g: Generation, m: nat, y: Cutting, display: string)
    requires Shaped(y, m + 5) && y.marks == GenerationMarks(n, m, display)
    ensures GenerationCutting(n, WithGeneration(g, m, y.free, display)) == y
  {
    assert GenerationFree(WithGeneration(g, m, y.free, display)) == y.free;
  }

  lemma MovedGeneration(n: Names, g: Generation, k: nat, held: string) returns (h: Generation)
    requires Normal(g) && GenerationMoves(n, g, k, held)
    ensures Normal(h) && h != g && h.megapixels == g.megapixels && h.transform == g.transform
    ensures Woven(GenerationCutting(n, h)) == Woven(GenerationCutting(n, g))
  {
    var m, x := |g.identityAnchors|, GenerationCutting(n, g);
    var mark := Mark(GenerationGap(n, m, k), held);
    var y: Cutting;
    if Occurs(mark, x.free[k]) {
      var p, q :| x.free[k] == p + mark + q;
      y := RecutLeft(x, m + 5, k, p, mark, q);
    } else {
      var p, q :| x.free[k + 1] == p + mark + q;
      y := RecutRight(x, m + 5, k, p, mark, q);
    }
    var display := if k == 1 then held else g.displayName;
    assert GenerationHeld(m, display) == GenerationHeld(m, g.displayName)[k := held];
    assert y.marks == GenerationMarks(n, m, display);
    WithGenerationCuts(n, g, m, y, display);
    h := WithGeneration(g, m, y.free, display);
  }

  lemma RecountedGeneration(n: Names, g: Generation, m: nat, display: string) returns (h: Generation)
    requires Normal(g) && Recounts(n, g, m, display)
    ensures |h.identityAnchors| == m && Normal(h) && h != g && h.megapixels == g.megapixels && h.transform == g.transform
    ensures Woven(GenerationCutting(n, h)) == Woven(GenerationCutting(n, g))
  {
    var y := InOrderWoven(Woven(GenerationCutting(n, g)), GenerationMarks(n, m, display), m + 5);
    WithGenerationCuts(n, g, m, y, display);
    h := WithGeneration(g, m, y.free, display);
  }

  /** Some request for another generation has the same preimage. */
  ghost predicate GenerationCollides(x: GenerationInput) {
    exists y :: GenerationPreimage(y) == GenerationPreimage(x) && CanonicalGeneration(y) != CanonicalGeneration(x)
  }

  /** A request that asks for a canonical generation. */
  function Asking(g: Generation, megapixels: real): GenerationInput {
    GenerationInput(g.tenantId, g.identityId, g.displayName, g.styleProfileId, g.anchorAssetId, g.identityAnchors,
                    g.deriveFrom, g.intent, megapixels, g.transform)
  }

  lemma AnotherCollides(x: GenerationInput, h: Generation)
    requires var n, g := LabelNames(), CanonicalGeneration(x);
             && Normal(h) && h != g && h.megapixels == g.megapixels && h.transform == g.transform
             && Woven(GenerationCutting(n, h)) == Woven(GenerationCutting(n, g))
    ensures GenerationCollides(x)
  {
    NamesAreClean();
    CanonicalIsNormal(x);
    var y := Asking(h, x.maxMegapixels);
    assert CanonicalGeneration(y) == h;
    SameGenerationText(LabelNames(), h, CanonicalGeneration(x));
  }

  /**
   * A generation request shares its preimage with a different one exactly when, of two neighbouring
   * identifiers, one contains the newline and label that separate them, or when the labels of
   * another number of anchors occur in its identifiers' text in order.
   */
  lemma GenerationsCollideExactly(x: GenerationInput)
    ensures GenerationCollides(x) <==> GenerationAmbiguous(LabelNames(), CanonicalGeneration(x))
  {
    var n, g := LabelNames(), CanonicalGeneration(x);
    NamesAreClean();
    NamesAreDistinct();
    CanonicalIsNormal(x);
    if k: nat, held :| GenerationMoves(n, g, k, held) {
      var h := MovedGeneration(n, g, k, held);
      AnotherCollides(x, h);
    } else if m: nat, display :| Recounts(n, g, m, display) {
      var h := RecountedGeneration(n, g, m, display);
      AnotherCollides(x, h);
    }
    if y :| GenerationPreimage(y) == GenerationPreimage(x) && CanonicalGeneration(y) != CanonicalGeneration(x) {
      var h := CanonicalGeneration(y);
      CanonicalIsNormal(y);
      SameGenerationText(n, g, h);
      if |g.identityAnchors| == |h.identityAnchors| {
        OtherGenerationMoves(n, g, h, |g.identityAnchors|);
      } else {
        OtherGenerationRecounts(n, g, h);
      }
    }
  }

  lemma CountIsOnlyItsOwn(n: Names, m: nat)
    requires DistinctNames(n)
    ensures OnlyIn(GenerationGaps(n, m), n.anchorCount, 3)
  {
    forall k: nat | k < m + 5
      ensures FirstName(GenerationGap(n, m, k)) == n.anchorCount ==> k == 3
      ensures GenerationGap(n, m, k).Held? ==> GenerationGap(n, m, k).name != n.anchorCount
    {
      assert AfterCount(n, m, if k < 3 then 0 else k - 3) != n.anchorCount;
    }
  }

  lemma CountStands(n: Names, g: Generation, x: Cutting, t: string, ends: seq<nat>, m: nat)
    requires CutsGeneration(n, x, g) && m == |g.identityAnchors| && LiesAt(x, m + 5, t, ends, 3)
    ensures At(Cut(n.anchorCount), t, ends[3])
    ensures At(Decimal(m) + [NEWLINE], t, ends[3] + |Cut(n.anchorCount)|)
  {
    HeldParts(Held(n.anchorCount, AfterCount(n, m, 0)), Decimal(m), t, ends[3]);
  }

  /** Text cut for another number of anchors has the label of the count inside an identifier. */
  lemma RecountNeedsLabel(n: Names, g: Generation, m: nat, display: string)
    requires CleanNames(n) && DistinctNames(n) && Normal(g) && Recounts(n, g, m, display)
    ensures exists j :: 0 <= j < |GenerationFree(g)| && Occurs(Cut(n.anchorCount), GenerationFree(g)[j])
  {
    var h := RecountedGeneration(n, g, m, display);
    var x, y, t := GenerationCutting(n, g), GenerationCutting(n, h), Woven(GenerationCutting(n, g));
    var ds := LaidOut(x, |g.identityAnchors| + 5, t);
    var es := LaidOut(y, m + 5, t);
    CuttingCuts(n, g);
    CuttingCuts(n, h);
    CountsApart(n, g, h, x, y, t, ds, es);
  }

  /** The label of the count, wherever it stands in a generation's text, is the generation's own or part of an identifier. */
  lemma CountFound(n: Names, g: Generation, x: Cutting, t: string, ds: seq<nat>, p: nat)
    requires CleanNames(n) && DistinctNames(n) && Normal(g) && At(Cut(n.anchorCount), t, p)
    requires Shaped(x, |g.identityAnchors| + 5) && x.marks == GenerationMarks(n, |g.identityAnchors|, g.displayName)
    requires Laid(x, |g.identityAnchors| + 5, t, ds) && |ds| == |g.identityAnchors| + 6
    ensures p == ds[3] || exists j :: 0 <= j < |x.free| && Occurs(Cut(n.anchorCount), x.free[j])
  {
    var k := |g.identityAnchors|;
    CountIsOnlyItsOwn(n, k);
    GenerationGapsProper(n, k);
    GenerationFits(n, g);
    CutHome(x, GenerationGaps(n, k), GenerationHeld(k, g.displayName), t, ds, n.anchorCount, 3, p);
  }

  lemma CountsApart(n: Names, g: Generation, h: Generation, x: Cutting, y: Cutting, t: string, ds: seq<nat>, es: seq<nat>)
    requires CleanNames(n) && DistinctNames(n) && Normal(g) && |h.identityAnchors| != |g.identityAnchors|
    requires CutsGeneration(n, x, g) && Laid(x, |g.identityAnchors| + 5, t, ds)
    requires CutsGeneration(n, y, h) && Laid(y, |h.identityAnchors| + 5, t, es)
    requires x.marks == GenerationMarks(n, |g.identityAnchors|, g.displayName)
    ensures exists j :: 0 <= j < |x.free| && Occurs(Cut(n.anchorCount), x.free[j])
  {
    var k, m := |g.identityAnchors|, |h.identityAnchors|;
    assert LiesAt(x, k + 5, t, ds, 3) && LiesAt(y, m + 5, t, es, 3);
    CountStands(n, g, x, t, ds, k);
    CountStands(n, h, y, t, es, m);
    CountFound(n, g, x, t, ds, es[3]);
    if es[3] == ds[3] {
      SameCount(t, es[3] + |Cut(n.anchorCount)|, k, m);
    }
  }

  lemma SameCount(t: string, i: int, k: nat, m: nat)
    requires At(Decimal(k) + [NEWLINE], t, i) && At(Decimal(m) + [NEWLINE], t, i)
    ensures k == m
  {
    DecimalIsClean(k);
    DecimalIsClean(m);
    SameEnd(Decimal(k), Decimal(m), NEWLINE, t, i);
    DecimalInjective(k, m);
  }

  lemma GenerationFits(n: Names, g: Generation)
    requires Normal(g)
    ensures AllFit(GenerationGaps(n, |g.identityAnchors|), GenerationHeld(|g.identityAnchors|, g.displayName))
  {
    var m := |g.identityAnchors|;
    forall k: nat | k < m + 5 ensures Fits(GenerationGaps(n, m)[k], GenerationHeld(m, g.displayName)[k]) {
      GenerationHeldFits(n, m, k, GenerationHeld(m, g.displayName)[k]);
    }
  }

  lemma OneLineIsUnambiguous(n: Names, x: GenerationInput)
    requires CleanNames(n) && DistinctNames(n) && SingleLineGeneration(x)
    ensures !GenerationAmbiguous(n, CanonicalGeneration(x))
  {
    var g := CanonicalGeneration(x);
    var f := GenerationFree(g);
    CanonicalIsNormal(x);
    forall j | 0 <= j < |f| ensures NEWLINE !in f[j] {
      assert 4 <= j < 4 + |x.identityAnchors| ==> f[j] == x.identityAnchors[j - 4];
    }
    forall k: nat, held ensures !GenerationMoves(n, g, k, held) {
      if k < |g.identityAnchors| + 5 {
        OneLineHidesNothing(GenerationGap(n, |g.identityAnchors|, k), held, f[k]);
        OneLineHidesNothing(GenerationGap(n, |g.identityAnchors|, k), held, f[k + 1]);
      }
    }
    forall m: nat, display ensures !Recounts(n, g, m, display) {
      forall j | 0 <= j < |f| ensures !Occurs(Cut(n.anchorCount), f[j]) {
        OneLineHidesNothing(Plain(n.anchorCount), "", f[j]);
      }
      if Recounts(n, g, m, display) {
        RecountNeedsLabel(n, g, m, display);
      }
    }
  }

  /** A request whose identifiers stay on one line shares its preimage with no other, whatever that contains. */
  lemma GenerationPreimageInjective(x: GenerationInput, y: GenerationInput)
    requires SingleLineGeneration(x)
    ensures GenerationPreimage(x) == GenerationPreimage(y) <==> CanonicalGeneration(x) == CanonicalGeneration(y)
  {
    NamesAreClean();
    NamesAreDistinct();
    OneLineIsUnambiguous(LabelNames(), x);
    GenerationsCollideExactly(x);
  }

  // Requests that collide ---------------------------------------------------------------

  lemma Neighbours(x: Cutting, y: Cutting, n: nat, k: nat)
    requires Shaped(x, n) && Shaped(y, n) && k < n && x.marks == y.marks
    requires y.free == x.free[k := y.free[k]][k + 1 := y.free[k + 1]]
    requires y.free[k] + x.marks[k] + y.free[k + 1] == x.free[k] + x.marks[k] + x.free[k + 1]
    ensures Woven(x) == Woven(y)
  {
    RecutWeaves(x, k, y.free[k], x.marks[k], y.free[k + 1], n);
    assert y == Recut(x, k, y.free[k], x.marks[k], y.free[k + 1]);
  }

  /** Both ids come with the request: text moves between them when the identity has no anchors. */
  lemma NewlinesCollide(x: GenerationInput, p: string, q: string, r: string)
    requires x.identityAnchors == []
    ensures var n := LabelNames();
            var between := Mark(Held(n.anchorCount, n.deriveFrom), "0");
            var y := x.(anchorAssetId := p + between + q, deriveFrom := r);
            var z := x.(anchorAssetId := p, deriveFrom := q + between + r);
            GenerationPreimage(y) == GenerationPreimage(z) && CanonicalGeneration(y) != CanonicalGeneration(z)
  {
    var n := LabelNames();
    var between := Mark(Held(n.anchorCount, n.deriveFrom), "0");
    var y := x.(anchorAssetId := p + between + q, deriveFrom := r);
    var z := x.(anchorAssetId := p, deriveFrom := q + between + r);
    SourcesCollide(n, CanonicalGeneration(x), between, p, q, r);
    NamesAreClean();
    CanonicalIsNormal(y);
    CanonicalIsNormal(z);
    SameGenerationText(n, CanonicalGeneration(y), CanonicalGeneration(z));
    assert |p + between + q| > |p|;
  }

  lemma SourcesCollide(n: Names, g: Generation, between: string, p: string, q: string, r: string)
    requires g.identityAnchors == [] && between == Mark(Held(n.anchorCount, n.deriveFrom), "0")
    ensures Woven(GenerationCutting(n, g.(anchorAssetId := p + between + q, deriveFrom := r)))
         == Woven(GenerationCutting(n, g.(anchorAssetId := p, deriveFrom := q + between + r)))
  {
    var y, z := g.(anchorAssetId := p + between + q, deriveFrom := r), g.(anchorAssetId := p, deriveFrom := q + between + r);
    CuttingCuts(n, y);
    assert Decimal(0) == "0";
    assert p + between + (q + between + r) == (p + between + q) + between + r;
    Neighbours(GenerationCutting(n, y), GenerationCutting(n, z), 5, 3);
  }

  /** Between the two ids that name an artifact text moves in the same way, */
  lemma ArtifactNewlinesCollide(x: ArtifactInput, p: string, q: string, r: string)
    ensures var between := Cut(LabelNames().artifactId);
            var y := x.(worldId := p + between + q, artifactId := r);
            var z := x.(worldId := p, artifactId := q + between + r);
            ArtifactPreimage(y) == ArtifactPreimage(z) && CanonicalArtifact(y) != CanonicalArtifact(z)
  {
    var n := LabelNames();
    var between := Cut(n.artifactId);
    var y := CanonicalArtifact(x.(worldId := p + between + q, artifactId := r));
    var z := CanonicalArtifact(x.(worldId := p, artifactId := q + between + r));
    assert p + between + (q + between + r) == (p + between + q) + between + r;
    ArtifactNeighbours(n, y, z, 1);
    SameArtifactPreimage(x.(worldId := p + between + q, artifactId := r), x.(worldId := p, artifactId := q + between + r));
    assert |p + between + q| > |p|;
  }

  /** and between the quality tier and a variant key that is not empty. */
  lemma VariantNewlinesCollide(x: ArtifactInput, p: string, q: string, r: string)
    requires r != ""
    ensures var between := Cut(LabelNames().variantKey);
            var y := x.(qualityTier := p + between + q, variantKey := r);
            var z := x.(qualityTier := p, variantKey := q + between + r);
            ArtifactPreimage(y) == ArtifactPreimage(z) && CanonicalArtifact(y) != CanonicalArtifact(z)
  {
    var n := LabelNames();
    var between := Cut(n.variantKey);
    var y := CanonicalArtifact(x.(qualityTier := p + between + q, variantKey := r));
    var z := CanonicalArtifact(x.(qualityTier := p, variantKey := q + between + r));
    assert p + between + (q + between + r) == (p + between + q) + between + r;
    ArtifactNeighbours(n, y, z, 4);
    SameArtifactPreimage(x.(qualityTier := p + between + q, variantKey := r), x.(qualityTier := p, variantKey := q + between + r));
    assert |p + between + q| > |p|;
  }

  lemma ArtifactNeighbours(n: Names, y: ArtifactInput, z: ArtifactInput, k: nat)
    requires k < 5 && ArtifactHeld(y) == ArtifactHeld(z)
    requires ArtifactFree(z) == ArtifactFree(y)[k := ArtifactFree(z)[k]][k + 1 := ArtifactFree(z)[k + 1]]
    requires var m := Mark(ArtifactGaps(n)[k], ArtifactHeld(y)[k]);
             ArtifactFree(z)[k] + m + ArtifactFree(z)[k + 1] == ArtifactFree(y)[k] + m + ArtifactFree(y)[k + 1]
    ensures Woven(ArtifactCutting(n, y)) == Woven(ArtifactCutting(n, z))
  {
    Neighbours(ArtifactCutting(n, y), ArtifactCutting(n, z), 5, k);
  }

  /** An identifier can also hide a whole count and anchor: a request without anchors, and one with one. */
  lemma AnchorsCollide(x: GenerationInput, p: string, q: string)
    ensures var n := LabelNames();
            var one, none := Mark(Held(n.anchorCount, n.anchor + "0"), "1"), Cut(n.anchorCount) + "0";
            var y := x.(anchorAssetId := p + one + q, identityAnchors := []);
            var z := x.(anchorAssetId := p, identityAnchors := [q + none]);
            GenerationPreimage(y) == GenerationPreimage(z)
  {
    var n := LabelNames();
    var one, none := Mark(Held(n.anchorCount, n.anchor + "0"), "1"), Cut(n.anchorCount) + "0";
    var y, z := x.(anchorAssetId := p + one + q, identityAnchors := []), x.(anchorAssetId := p, identityAnchors := [q + none]);
    NamesAreClean();
    CanonicalIsNormal(y);
    CanonicalIsNormal(z);
    AnchorTexts(n, CanonicalGeneration(y), CanonicalGeneration(z), p, q, one, none);
    SameGenerationText(n, CanonicalGeneration(y), CanonicalGeneration(z));
  }

  lemma AnchorTexts(n: Names, g: Generation, h: Generation, p: string, q: string, one: string, none: string)
    requires one == Mark(Held(n.anchorCount, n.anchor + "0"), "1") && none == Cut(n.anchorCount) + "0"
    requires g.anchorAssetId == p + one + q && g.identityAnchors == []
    requires h == g.(anchorAssetId := p, identityAnchors := [q + none])
    ensures Woven(GenerationCutting(n, g)) == Woven(GenerationCutting(n, h))
  {
    var x, y, d := GenerationCutting(n, g), GenerationCutting(n, h), Cut(n.deriveFrom);
    CuttingCuts(n, g);
    CuttingCuts(n, h);
    assert Decimal(0) == "0" && Decimal(1) == "1";
    assert y.marks[4] == d && y.marks[5] == Cut(AfterCount(n, 1, 2)) && x.marks[4] == Cut(AfterCount(n, 0, 1));
    assert y.free[4] == q + none && x.marks[3] == none + d;
    SameWeave(x, y, p, one, q, none, d);
  }

  /** A piece that holds a mark and another that holds the rest of the one it stood before: the text is the same. */
  lemma SameWeave(x: Cutting, y: Cutting, p: string, one: string, q: string, none: string, d: string)
    requires Shaped(x, 5) && Shaped(y, 6) && x.free[..3] == y.free[..3] && x.marks[..2] == y.marks[..2]
    requires x.marks[2] == y.marks[2] && x.marks[4] == y.marks[5] && x.free[4] == y.free[5] && x.free[5] == y.free[6]
    requires x.free[3] == p + one + q && x.marks[3] == none + d
    requires y.free[3] == p && y.marks[3] == one && y.free[4] == q + none && y.marks[4] == d
    ensures Woven(x) == Woven(y)
  {
    UpToAsset(x, y);
    var w := Weave(x, 2) + x.marks[2];
    assert Weave(x, 3) == w + (p + one + q) && Weave(y, 3) == w + p;
    assert Weave(x, 4) == w + (p + one + q) + (none + d) + x.free[4];
    assert Weave(y, 4) == w + p + one + (q + none);
    assert Weave(y, 5) == w + p + one + (q + none) + d + x.free[4];
    Regroup(w, p, one, q, none, d);
    assert Weave(x, 4) == Weave(y, 5);
  }

  lemma Regroup(w: string, p: string, one: string, q: string, none: string, d: string)
    ensures w + (p + one + q) + (none + d) == w + p + one + (q + none) + d
  {}

  lemma UpToAsset(x: Cutting, y: Cutting)
    requires |x.free| == |x.marks| + 1 >= 4 && |y.free| == |y.marks| + 1 >= 4
    requires x.free[..3] == y.free[..3] && x.marks[..2] == y.marks[..2]
    ensures Weave(x, 2) == Weave(y, 2)
  {
    assert x.free[0] == x.free[..3][0] && y.free[0] == y.free[..3][0];
    assert x.free[1] == x.free[..3][1] && y.free[1] == y.free[..3][1];
    assert x.free[2] == x.free[..3][2] && y.free[2] == y.free[..3][2];
    assert x.marks[0] == x.marks[..2][0] && y.marks[0] == y.marks[..2][0];
    assert x.marks[1] == x.marks[..2][1] && y.marks[1] == y.marks[..2][1];
    assert Weave(x, 1) == Weave(y, 1);
  }
}
