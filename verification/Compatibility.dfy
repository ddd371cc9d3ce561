/** The variant compatibility matrix: may a stored variant stand in for a requested one? */
module Compatibility {
  import opened Rows

  datatype Family =
    | Unknown
    | Neutral | Warm | Tense | StrongEmotion | Outfit | CharacterState | PortraitCrop | FullBody
    | Establishing | TimeOfDay | Crowd | Weather | PlaceFraming | PlaceState

  /** Structured tags; an absent tag reads as the empty string. */
  datatype Tags = Tags(angle: string, timeOfDay: string, weather: string, crowd: string)

  datatype Variant = Variant(key: string, family: Family, tags: Tags, fallbackAllowed: bool)

  datatype Spec = Spec(family: Family, tags: Tags, fallbackAllowed: bool)

  /** The fixed role vocabularies, keyed by entity type and variant key. */
  type Vocabulary = map<(string, string), Spec>

  datatype Outcome = ExactMatch | CompatibleMatch | PreviewFallback | InvalidMatch

  datatype Verdict = Verdict(outcome: Outcome, score: real)

  const INVALID := Verdict(InvalidMatch, 0.0)

  function ClassifyVariant(vocabulary: Vocabulary, entityType: string, key: string): Variant {
    if (entityType, key) in vocabulary then
      var spec := vocabulary[(entityType, key)];
      Variant(key, spec.family, spec.tags, spec.fallbackAllowed)
    else Variant(key, Unknown, Tags("", "", "", ""), false)
  }

  predicate StrictCharacter(f: Family) {
    f in {StrongEmotion, Outfit, CharacterState, PortraitCrop, FullBody}
  }

  predicate StrictPlace(f: Family) {
    f in {PlaceFraming, PlaceState}
  }

  predicate StrongWeather(w: string) {
    w in {"rain", "snow", "storm", "fog", "fire", "flood"}
  }

  predicate Frontish(angle: string) {
    angle in {"front", "three_quarter", "bust"}
  }

  predicate Twilight(time: string) {
    time in {"dawn", "dusk"}
  }

  predicate MildExpression(f: Family) {
    f == Warm || f == Tense
  }

  function CharacterAngle(requested: Variant, candidate: Variant): Verdict {
    var r, c := requested.tags.angle, candidate.tags.angle;
    if r == c then Verdict(CompatibleMatch, 0.9)
    else if Frontish(r) && Frontish(c) then Verdict(CompatibleMatch, 0.85)
    else if r == "side_profile" || c == "side_profile" then Verdict(PreviewFallback, 0.5)
    else INVALID
  }

  function CompareCharacter(requested: Variant, candidate: Variant): Verdict {
    if StrictCharacter(requested.family) || StrictCharacter(candidate.family) then INVALID
    else if requested.family == candidate.family then
      if requested.family == Neutral then CharacterAngle(requested, candidate) else Verdict(CompatibleMatch, 0.85)
    else if MildExpression(requested.family) && candidate.family == Neutral then
      if candidate.fallbackAllowed then Verdict(CompatibleMatch, 0.65) else INVALID
    else if requested.family == Neutral && MildExpression(candidate.family) then
      if candidate.fallbackAllowed then Verdict(CompatibleMatch, 0.65) else INVALID
    else INVALID
  }

  function PlaceTimeOfDay(requested: Variant, candidate: Variant): Verdict {
    var r, c := requested.tags.timeOfDay, candidate.tags.timeOfDay;
    if r == c then Verdict(CompatibleMatch, 0.9)
    else if Twilight(r) && Twilight(c) then Verdict(CompatibleMatch, 0.7)
    else INVALID
  }

  function ComparePlace(requested: Variant, candidate: Variant): Verdict {
    if StrictPlace(requested.family) || StrictPlace(candidate.family) then INVALID
    else if requested.family == candidate.family then
      match requested.family
      case TimeOfDay => PlaceTimeOfDay(requested, candidate)
      case Weather =>
        if StrongWeather(requested.tags.weather) || StrongWeather(candidate.tags.weather) then INVALID
        else Verdict(CompatibleMatch, 0.7)
      case Crowd =>
        if requested.tags.crowd == candidate.tags.crowd then Verdict(CompatibleMatch, 0.8) else INVALID
      case Establishing => Verdict(CompatibleMatch, 0.8)
      case _ => INVALID
    else if requested.family == TimeOfDay && candidate.family == Establishing then
      if candidate.fallbackAllowed && candidate.tags.timeOfDay == "" then Verdict(PreviewFallback, 0.4) else INVALID
    else INVALID
  }

  function CompareVariants(entityType: string, requested: Variant, candidate: Variant): Verdict {
    if requested.key == candidate.key then Verdict(ExactMatch, 1.0)
    else if requested.family == Unknown || candidate.family == Unknown then INVALID
    else if entityType == "character" then CompareCharacter(requested, candidate)
    else if entityType == "place" then ComparePlace(requested, candidate)
    else INVALID
  }

  // Matrix laws -----------------------------------------------------------------------

  predicate Strict(entityType: string, v: Variant) {
    || v.family == Unknown
    || (entityType == "character" && StrictCharacter(v.family))
    || (entityType == "place" && (StrictPlace(v.family) || (v.family == Weather && StrongWeather(v.tags.weather))))
  }

  /** A strict variant, on either side, is matched by its own key and by nothing else. */
  lemma StrictNeedsItsKey(entityType: string, requested: Variant, candidate: Variant)
    requires Strict(entityType, requested) || Strict(entityType, candidate)
    ensures CompareVariants(entityType, requested, candidate) ==
            if requested.key == candidate.key then Verdict(ExactMatch, 1.0) else INVALID
  {}

  /** Scores rank as tiers do: exact, then every compatible score, then every preview score, then 0. */
  lemma ScoresFollowTiers(entityType: string, requested: Variant, candidate: Variant)
    ensures var v := CompareVariants(entityType, requested, candidate);
            match v.outcome
            case ExactMatch => v.score == 1.0 && requested.key == candidate.key
            case CompatibleMatch => 0.65 <= v.score <= 0.9
            case PreviewFallback => 0.4 <= v.score <= 0.5
            case InvalidMatch => v.score == 0.0
  {}

  /** Between two different keys, only an establishing preview or a fallback-unsafe face is one-way. */
  lemma OneWaySubstitution(entityType: string, a: Variant, b: Variant)
    requires CompareVariants(entityType, a, b) != CompareVariants(entityType, b, a)
    ensures || (entityType == "place" && {a.family, b.family} == {TimeOfDay, Establishing})
            || (entityType == "character" && a.fallbackAllowed != b.fallbackAllowed
                && Neutral in {a.family, b.family} && (MildExpression(a.family) || MildExpression(b.family)))
  {}

  /** Which differing places of one family may stand in for each other: never across a contradiction. */
  lemma PlacesWithoutContradiction(requested: Variant, candidate: Variant)
    requires requested.key != candidate.key && requested.family == candidate.family
    ensures
      var v := CompareVariants("place", requested, candidate).outcome;
      var r, c := requested.tags, candidate.tags;
      match requested.family
      case TimeOfDay => v == if r.timeOfDay == c.timeOfDay || (Twilight(r.timeOfDay) && Twilight(c.timeOfDay)) then CompatibleMatch else InvalidMatch
      case Weather => v == if StrongWeather(r.weather) || StrongWeather(c.weather) then InvalidMatch else CompatibleMatch
      case Crowd => v == if r.crowd == c.crowd then CompatibleMatch else InvalidMatch
      case Establishing => v == CompatibleMatch
      case _ => v == InvalidMatch
  {}

  predicate OneProfile(a: string, b: string) {
    a != b && "side_profile" in {a, b}
  }

  /** A warm face never stands in for a tense one or the reverse, and a profile only ever as a preview. */
  lemma FacesWithoutContradiction(requested: Variant, candidate: Variant)
    requires requested.key != candidate.key
    ensures
      var v := CompareVariants("character", requested, candidate).outcome;
      && ({requested.family, candidate.family} == {Warm, Tense} ==> v == InvalidMatch)
      && (requested.family == candidate.family == Neutral && OneProfile(requested.tags.angle, candidate.tags.angle) ==> v == PreviewFallback)
      && (v == PreviewFallback ==> requested.family == candidate.family == Neutral)
      && (v == CompatibleMatch && requested.family != candidate.family ==> candidate.fallbackAllowed)
  {}

  /**
   * The matrix of faces, between different keys: one mild family stands in for itself; neutral faces by
   * their angle; a mild and a neutral one only where the stored asset may fall back; nothing else.
   */
  lemma FaceMatrix(requested: Variant, candidate: Variant)
    requires requested.key != candidate.key
    requires requested.family in {Unknown, Neutral, Warm, Tense, StrongEmotion, Outfit, CharacterState, PortraitCrop, FullBody}
    ensures
      var v := CompareVariants("character", requested, candidate);
      var r, c := requested.tags.angle, candidate.tags.angle;
      var front := {"front", "three_quarter", "bust"};
      match (requested.family, candidate.family)
      case (Warm, Warm) => v == Verdict(CompatibleMatch, 0.85)
      case (Tense, Tense) => v == Verdict(CompatibleMatch, 0.85)
      case (Neutral, Neutral) =>
        v == if r == c then Verdict(CompatibleMatch, 0.9)
             else if r in front && c in front then Verdict(CompatibleMatch, 0.85)
             else if "side_profile" in {r, c} then Verdict(PreviewFallback, 0.5)
             else Verdict(InvalidMatch, 0.0)
      case (Warm, Neutral) => v == if candidate.fallbackAllowed then Verdict(CompatibleMatch, 0.65) else Verdict(InvalidMatch, 0.0)
      case (Tense, Neutral) => v == if candidate.fallbackAllowed then Verdict(CompatibleMatch, 0.65) else Verdict(InvalidMatch, 0.0)
      case (Neutral, Warm) => v == if candidate.fallbackAllowed then Verdict(CompatibleMatch, 0.65) else Verdict(InvalidMatch, 0.0)
      case (Neutral, Tense) => v == if candidate.fallbackAllowed then Verdict(CompatibleMatch, 0.65) else Verdict(InvalidMatch, 0.0)
      case _ => v == Verdict(InvalidMatch, 0.0)
  {}

  /**
   * The matrix of places, between different keys: times of day only where they share their light, calm
   * weathers for each other, crowds of one kind, establishing views for each other; and an establishing
   * view without a time previews a time of day where it may fall back.
   */
  lemma PlaceMatrix(requested: Variant, candidate: Variant)
    requires requested.key != candidate.key
    ensures
      var v := CompareVariants("place", requested, candidate);
      var r, c := requested.tags, candidate.tags;
      var strong := {"rain", "snow", "storm", "fog", "fire", "flood"};
      match (requested.family, candidate.family)
      case (TimeOfDay, TimeOfDay) =>
        v == if r.timeOfDay == c.timeOfDay then Verdict(CompatibleMatch, 0.9)
             else if {r.timeOfDay, c.timeOfDay} == {"dawn", "dusk"} then Verdict(CompatibleMatch, 0.7)
             else Verdict(InvalidMatch, 0.0)
      case (Weather, Weather) => v == if r.weather in strong || c.weather in strong then Verdict(InvalidMatch, 0.0) else Verdict(CompatibleMatch, 0.7)
      case (Crowd, Crowd) => v == if r.crowd == c.crowd then Verdict(CompatibleMatch, 0.8) else Verdict(InvalidMatch, 0.0)
      case (Establishing, Establishing) => v == Verdict(CompatibleMatch, 0.8)
      case (TimeOfDay, Establishing) =>
        v == if candidate.fallbackAllowed && c.timeOfDay == "" then Verdict(PreviewFallback, 0.4) else Verdict(InvalidMatch, 0.0)
      case _ => v == Verdict(InvalidMatch, 0.0)
  {}

  /** A key the vocabulary does not know has no family, so it is matched by itself only, as is everything of any other entity type. */
  lemma UnknownIsStrict(vocabulary: Vocabulary, entityType: string, requested: string, candidate: string)
    requires (entityType, requested) !in vocabulary || (entityType, candidate) !in vocabulary || entityType !in {"character", "place"}
    ensures CompareVariants(entityType, ClassifyVariant(vocabulary, entityType, requested), ClassifyVariant(vocabulary, entityType, candidate))
         == if requested == candidate then Verdict(ExactMatch, 1.0) else Verdict(InvalidMatch, 0.0)
  {}
}
