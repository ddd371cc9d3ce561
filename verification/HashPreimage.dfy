/**
 * The text the render hashes are taken over. The digest itself is opaque, so results are
 * stated on the text. List functions take the label names as a value.
 */
module HashPreimage {
  import opened Rows
  import opened LabelledText

  // Labels ----------------------------------------------------------------------------

  datatype Names = Names(
    gv: string, v: string, tenantId: string, identityId: string, displayName: string, styleProfileId: string,
    anchorAssetId: string, anchorCount: string, anchor: string, deriveFrom: string, intent: string,
    maxMegapixels: string, transform: string, worldId: string, artifactId: string, description: string,
    styleProfileVersion: string, qualityTier: string, variantKey: string)

  function LabelNames(): Names {
    Names("gv", "v", "tenant_id", "identity_id", "display_name", "style_profile_id",
          "anchor_asset_id", "identity_anchor_count", "identity_anchor_", "derive_from", "intent",
          "max_megapixels", "transform", "world_id", "artifact_id", "description",
          "style_profile_version", "quality_tier", "variant_key")
  }

  predicate CleanNames(n: Names) {
    && CleanName(n.gv) && CleanName(n.v) && CleanName(n.tenantId) && CleanName(n.identityId)
    && CleanName(n.displayName) && CleanName(n.styleProfileId) && CleanName(n.anchorAssetId)
    && CleanName(n.anchorCount) && CleanName(n.anchor) && CleanName(n.deriveFrom) && CleanName(n.intent)
    && CleanName(n.maxMegapixels) && CleanName(n.transform) && CleanName(n.worldId) && CleanName(n.artifactId)
    && CleanName(n.description) && CleanName(n.styleProfileVersion) && CleanName(n.qualityTier)
    && CleanName(n.variantKey)
  }

  lemma NamesAreClean()
    ensures CleanNames(LabelNames())
  {
    SharedNamesAreClean();
    HeadNamesAreClean();
    AnchorNamesAreClean();
    TailNamesAreClean();
    ArtifactNamesAreClean();
    StyleNamesAreClean();
  }

  lemma SharedNamesAreClean()
    ensures CleanName(LabelNames().gv) && CleanName(LabelNames().v) && CleanName(LabelNames().tenantId)
    ensures CleanName(LabelNames().identityId) && CleanName(LabelNames().styleProfileId)
  {}

  lemma HeadNamesAreClean()
    ensures CleanName(LabelNames().displayName) && CleanName(LabelNames().anchorAssetId)
  {}

  lemma AnchorNamesAreClean()
    ensures CleanName(LabelNames().anchorCount) && CleanName(LabelNames().anchor)
  {}

  lemma TailNamesAreClean()
    ensures CleanName(LabelNames().deriveFrom) && CleanName(LabelNames().intent)
    ensures CleanName(LabelNames().maxMegapixels) && CleanName(LabelNames().transform)
  {}

  lemma ArtifactNamesAreClean()
    ensures CleanName(LabelNames().worldId) && CleanName(LabelNames().artifactId) && CleanName(LabelNames().description)
  {}

  lemma StyleNamesAreClean()
    ensures CleanName(LabelNames().styleProfileVersion) && CleanName(LabelNames().qualityTier)
    ensures CleanName(LabelNames().variantKey)
  {}

  /** Labels that stand next to each other differ, and no other label is that of the anchor count. */
  ghost predicate DistinctNames(n: Names) {
    && n.displayName != n.styleProfileId && n.description != n.styleProfileId
    && n.styleProfileVersion != n.qualityTier
    && n.anchorCount !in [n.identityId, n.displayName, n.styleProfileId, n.anchorAssetId, n.deriveFrom, n.intent]
    && forall i: nat :: n.anchor + Decimal(i) != n.anchorCount
  }

  lemma NamesAreDistinct()
    ensures DistinctNames(LabelNames())
  {
    var n := LabelNames();
    assert |n.anchorCount| == 21 && |n.anchor| == 16 && n.anchorCount[16] == 'c';
    forall i: nat ensures n.anchor + Decimal(i) != n.anchorCount {
      DigitsAreDigits(i);
      assert (n.anchor + Decimal(i))[16] == Digits(i)[0];
    }
  }

  /** A pixel budget in hundredths: 4.00 when unset, else the nearest, ties to even. */
  function Quantize(m: real): nat {
    if m <= 0.0 then 400
    else
      var scaled := m * 100.0;
      var below := scaled.Floor;
      var over := scaled - below as real;
      if over < 0.5 || (over == 0.5 && below % 2 == 0) then below else below + 1
  }

  /** The stored budget is the nearest hundredth, the even one of two equally near, and 4.00 where none was given. */
  lemma QuantizeIsNearest(m: real)
    ensures m <= 0.0 ==> Quantize(m) == 400
    ensures m > 0.0 ==> -0.5 <= Quantize(m) as real - m * 100.0 <= 0.5
    ensures m > 0.0 && (Quantize(m) as real - m * 100.0 == 0.5 || Quantize(m) as real - m * 100.0 == -0.5) ==> Quantize(m) % 2 == 0
  {}

  const GENERATION_HASH_VERSION := "5"
  const ARTIFACT_HASH_VERSION := "1"
  const DEFAULT_VARIANT_KEY := "default"

  // Generation requests ---------------------------------------------------------------

  datatype GenerationInput = GenerationInput(
    tenantId: string, identityId: string, displayName: string, styleProfileId: string, anchorAssetId: string,
    identityAnchors: seq<string>, deriveFrom: string, intent: string, maxMegapixels: real, transform: string)

  /** What a render is determined by: free text normalized, the pixel budget as stored. */
  datatype Generation = Generation(
    tenantId: string, identityId: string, displayName: string, styleProfileId: string, anchorAssetId: string,
    identityAnchors: seq<string>, deriveFrom: string, intent: string, megapixels: nat, transform: string)

  function CanonicalGeneration(x: GenerationInput): Generation {
    Generation(x.tenantId, x.identityId, Normalize(x.displayName), x.styleProfileId, x.anchorAssetId,
               x.identityAnchors, x.deriveFrom, x.intent, Quantize(x.maxMegapixels), Normalize(x.transform))
  }

  function AnchorField(n: Names, anchors: seq<string>, i: nat): Field
    requires i < |anchors|
  {
    Field(n.anchor + Decimal(i), anchors[i])
  }

  function AnchorFields(n: Names, anchors: seq<string>): seq<Field> {
    seq(|anchors|, i requires 0 <= i < |anchors| => AnchorField(n, anchors, i))
  }

  function GenerationHead(n: Names, g: Generation): seq<Field> {
    [Field(n.gv, GENERATION_HASH_VERSION), Field(n.tenantId, g.tenantId), Field(n.identityId, g.identityId),
     Field(n.displayName, g.displayName), Field(n.styleProfileId, g.styleProfileId),
     Field(n.anchorAssetId, g.anchorAssetId), Field(n.anchorCount, Decimal(|g.identityAnchors|))]
  }

  function GenerationTail(n: Names, g: Generation): seq<Field> {
    [Field(n.deriveFrom, g.deriveFrom), Field(n.intent, g.intent),
     Field(n.maxMegapixels, Hundredths(g.megapixels)), Field(n.transform, g.transform)]
  }

  function GenerationFields(n: Names, g: Generation): seq<Field> {
    GenerationHead(n, g) + AnchorFields(n, g.identityAnchors) + GenerationTail(n, g)
  }

  function GenerationPreimage(x: GenerationInput): string {
    Render(GenerationFields(LabelNames(), CanonicalGeneration(x)))
  }

  /** Identifiers carry no newline; free text may. */
  predicate SingleLineGeneration(x: GenerationInput) {
    && NEWLINE !in x.tenantId && NEWLINE !in x.identityId && NEWLINE !in x.styleProfileId
    && NEWLINE !in x.anchorAssetId && NEWLINE !in x.deriveFrom && NEWLINE !in x.intent
    && forall k :: 0 <= k < |x.identityAnchors| ==> NEWLINE !in x.identityAnchors[k]
  }

  // Artifact requests -----------------------------------------------------------------

  type int32 = v: int | -0x8000_0000 <= v < 0x8000_0000

  datatype ArtifactInput = ArtifactInput(
    tenantId: string, worldId: string, artifactId: string, description: string, styleProfileId: string,
    styleProfileVersion: Option<int32>, qualityTier: string, variantKey: string)

  function CanonicalArtifact(x: ArtifactInput): ArtifactInput {
    x.(description := Normalize(x.description), variantKey := if x.variantKey == "" then DEFAULT_VARIANT_KEY else x.variantKey)
  }

  function VersionText(v: Option<int32>): string {
    match v
    case Some(n) => Decimal(n)
    case None => ""
  }

  function ArtifactSubject(n: Names, a: ArtifactInput): seq<Field> {
    [Field(n.v, ARTIFACT_HASH_VERSION), Field(n.tenantId, a.tenantId), Field(n.worldId, a.worldId),
     Field(n.artifactId, a.artifactId), Field(n.description, a.description)]
  }

  function ArtifactStyle(n: Names, a: ArtifactInput): seq<Field> {
    [Field(n.styleProfileId, a.styleProfileId), Field(n.styleProfileVersion, VersionText(a.styleProfileVersion)),
     Field(n.qualityTier, a.qualityTier), Field(n.variantKey, a.variantKey)]
  }

  function ArtifactFields(n: Names, a: ArtifactInput): seq<Field> {
    ArtifactSubject(n, a) + ArtifactStyle(n, a)
  }

  function ArtifactPreimage(x: ArtifactInput): string {
    Render(ArtifactFields(LabelNames(), CanonicalArtifact(x)))
  }

  predicate SingleLineArtifact(x: ArtifactInput) {
    && NEWLINE !in x.tenantId && NEWLINE !in x.worldId && NEWLINE !in x.artifactId
    && NEWLINE !in x.styleProfileId && NEWLINE !in x.qualityTier && NEWLINE !in x.variantKey
  }

  lemma VersionInjective(v: Option<int32>, w: Option<int32>)
    requires VersionText(v) == VersionText(w)
    ensures v == w
  {
    DigitsAreDigits(if v.Some? && v.value >= 0 then v.value else 0);
    DigitsAreDigits(if w.Some? && w.value >= 0 then w.value else 0);
    if v.Some? && w.Some? {
      DecimalInjective(v.value, w.value);
    }
  }

  // The lines -------------------------------------------------------------------------

  /** The artifact text, line by line. */
  lemma ArtifactLines(x: ArtifactInput, fs: seq<Field>)
    requires fs == [Field("v", "1"), Field("tenant_id", x.tenantId), Field("world_id", x.worldId),
                    Field("artifact_id", x.artifactId), Field("description", Normalize(x.description)),
                    Field("style_profile_id", x.styleProfileId), Field("style_profile_version", VersionText(x.styleProfileVersion)),
                    Field("quality_tier", x.qualityTier), Field("variant_key", if x.variantKey == "" then "default" else x.variantKey)]
    ensures ArtifactPreimage(x) == Render(fs)
  {
    assert fs == ArtifactFields(LabelNames(), CanonicalArtifact(x));
  }

  /** The generation text, line by line; the anchors are numbered from 0. */
  lemma GenerationLines(x: GenerationInput, head: seq<Field>, anchors: seq<Field>, tail: seq<Field>)
    requires head == [Field("gv", "5"), Field("tenant_id", x.tenantId), Field("identity_id", x.identityId),
                      Field("display_name", Normalize(x.displayName)), Field("style_profile_id", x.styleProfileId),
                      Field("anchor_asset_id", x.anchorAssetId), Field("identity_anchor_count", Decimal(|x.identityAnchors|))]
    requires |anchors| == |x.identityAnchors|
    requires forall i: nat :: i < |anchors| ==> anchors[i] == Field("identity_anchor_" + Decimal(i), x.identityAnchors[i])
    requires tail == [Field("derive_from", x.deriveFrom), Field("intent", x.intent),
                      Field("max_megapixels", Hundredths(Quantize(x.maxMegapixels))), Field("transform", Normalize(x.transform))]
    ensures GenerationPreimage(x) == Render(head + anchors + tail)
  {
    var n, g := LabelNames(), CanonicalGeneration(x);
    assert anchors == AnchorFields(n, x.identityAnchors);
    assert head == GenerationHead(n, g) && tail == GenerationTail(n, g);
  }

  // The two vocabularies --------------------------------------------------------------

  lemma {:induction false} StartsWithFirstLine(fs: seq<Field>)
    requires fs != []
    ensures Line(fs[0]) <= Render(fs)
  {
    if |fs| > 1 {
      StartsWithFirstLine(fs[..|fs| - 1]);
    }
  }

  /** A generation and an artifact never share a preimage, whatever their fields contain. */
  lemma VocabulariesNeverMeet(x: GenerationInput, y: ArtifactInput)
    ensures GenerationPreimage(x) != ArtifactPreimage(y)
  {
    var n := LabelNames();
    var fs, gs := GenerationFields(n, CanonicalGeneration(x)), ArtifactFields(n, CanonicalArtifact(y));
    StartsWithFirstLine(fs);
    StartsWithFirstLine(gs);
    assert fs[0] == Field(n.gv, GENERATION_HASH_VERSION) && gs[0] == Field(n.v, ARTIFACT_HASH_VERSION);
    assert Line(fs[0])[0] == 'g' && Line(gs[0])[0] == 'v';
  }

  // The builder -----------------------------------------------------------------------

  /** The generation fields, position by position. */
  ghost predicate ListsGeneration(n: Names, fs: seq<Field>, g: Generation) {
    var m := |g.identityAnchors|;
    && |fs| == 11 + m
    && fs[0] == Field(n.gv, GENERATION_HASH_VERSION) && fs[1] == Field(n.tenantId, g.tenantId)
    && fs[2] == Field(n.identityId, g.identityId) && fs[3] == Field(n.displayName, g.displayName)
    && fs[4] == Field(n.styleProfileId, g.styleProfileId) && fs[5] == Field(n.anchorAssetId, g.anchorAssetId)
    && fs[6] == Field(n.anchorCount, Decimal(m))
    && (forall i: nat :: i < m ==> fs[7 + i] == AnchorField(n, g.identityAnchors, i))
    && fs[7 + m] == Field(n.deriveFrom, g.deriveFrom) && fs[8 + m] == Field(n.intent, g.intent)
    && fs[9 + m] == Field(n.maxMegapixels, Hundredths(g.megapixels)) && fs[10 + m] == Field(n.transform, g.transform)
  }

  method WriteHead(b: Builder, n: Names, g: Generation, ghost fs: seq<Field>)
    requires ListsGeneration(n, fs, g) && b.text == Render(fs[..0])
    modifies b
    ensures b.text == Render(fs[..7])
  {
    b.WriteField(n.gv, GENERATION_HASH_VERSION, fs, 0);
    b.WriteField(n.tenantId, g.tenantId, fs, 1);
    b.WriteField(n.identityId, g.identityId, fs, 2);
    b.WriteField(n.displayName, g.displayName, fs, 3);
    b.WriteField(n.styleProfileId, g.styleProfileId, fs, 4);
    b.WriteField(n.anchorAssetId, g.anchorAssetId, fs, 5);
    b.WriteField(n.anchorCount, Decimal(|g.identityAnchors|), fs, 6);
  }

  method WriteTail(b: Builder, n: Names, g: Generation, ghost fs: seq<Field>)
    requires ListsGeneration(n, fs, g) && b.text == Render(fs[..7 + |g.identityAnchors|])
    modifies b
    ensures b.text == Render(fs)
  {
    ghost var m := |g.identityAnchors|;
    b.WriteField(n.deriveFrom, g.deriveFrom, fs, 7 + m);
    b.WriteField(n.intent, g.intent, fs, 8 + m);
    b.WriteField(n.maxMegapixels, Hundredths(g.megapixels), fs, 9 + m);
    b.WriteField(n.transform, g.transform, fs, 10 + m);
    assert fs[..11 + m] == fs;
  }

  method WriteGeneration(n: Names, g: Generation, ghost fs: seq<Field>) returns (text: string)
    requires ListsGeneration(n, fs, g)
    ensures text == Render(fs)
  {
    var b := new Builder();
    WriteHead(b, n, g, fs);
    var i: nat := 0;
    while i < |g.identityAnchors|
      invariant i <= |g.identityAnchors| && b.text == Render(fs[..7 + i])
    {
      assert fs[7 + i] == AnchorField(n, g.identityAnchors, i);
      b.WriteField(n.anchor + Decimal(i), g.identityAnchors[i], fs, 7 + i);
      i := i + 1;
    }
    WriteTail(b, n, g, fs);
    text := b.text;
  }

  method GenerationText(x: GenerationInput) returns (text: string)
    ensures text == GenerationPreimage(x)
  {
    var g := CanonicalGeneration(x);
    text := WriteGeneration(LabelNames(), g, GenerationFields(LabelNames(), g));
  }

  /** The artifact fields, position by position. */
  ghost predicate ListsArtifact(n: Names, fs: seq<Field>, a: ArtifactInput) {
    && |fs| == 9
    && fs[0] == Field(n.v, ARTIFACT_HASH_VERSION) && fs[1] == Field(n.tenantId, a.tenantId)
    && fs[2] == Field(n.worldId, a.worldId) && fs[3] == Field(n.artifactId, a.artifactId)
    && fs[4] == Field(n.description, a.description) && fs[5] == Field(n.styleProfileId, a.styleProfileId)
    && fs[6] == Field(n.styleProfileVersion, VersionText(a.styleProfileVersion))
    && fs[7] == Field(n.qualityTier, a.qualityTier) && fs[8] == Field(n.variantKey, a.variantKey)
  }

  method WriteArtifact(n: Names, a: ArtifactInput, version: string, ghost fs: seq<Field>) returns (text: string)
    requires ListsArtifact(n, fs, a) && version == VersionText(a.styleProfileVersion)
    ensures text == Render(fs)
  {
    var b := new Builder();
    b.WriteField(n.v, ARTIFACT_HASH_VERSION, fs, 0);
    b.WriteField(n.tenantId, a.tenantId, fs, 1);
    b.WriteField(n.worldId, a.worldId, fs, 2);
    b.WriteField(n.artifactId, a.artifactId, fs, 3);
    b.WriteField(n.description, a.description, fs, 4);
    b.WriteField(n.styleProfileId, a.styleProfileId, fs, 5);
    b.WriteField(n.styleProfileVersion, version, fs, 6);
    b.WriteField(n.qualityTier, a.qualityTier, fs, 7);
    b.WriteField(n.variantKey, a.variantKey, fs, 8);
    assert fs[..9] == fs;
    text := b.text;
  }

  method ArtifactText(x: ArtifactInput) returns (text: string)
    ensures text == ArtifactPreimage(x)
  {
    var variantKey := x.variantKey;
    if variantKey == "" {
      variantKey := DEFAULT_VARIANT_KEY;
    }
    var version := "";
    if x.styleProfileVersion.Some? {
      version := Decimal(x.styleProfileVersion.value);
    }
    var a := x.(description := Normalize(x.description), variantKey := variantKey);
    text := WriteArtifact(LabelNames(), a, version, ArtifactFields(LabelNames(), a));
  }
}
