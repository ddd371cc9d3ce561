/**
 * The retrieval decision: exact hit, else the best candidate the policy allows, else
 * generate. Asset ids are modelled by a total order (integers); the two repository reads
 * are inputs.
 */
module Retrieval {
  import R = Rows
  import opened Compatibility

  datatype Asset = Asset(id: int, variantKey: string, ready: bool, anchor: bool, fallbackRank: R.Option<int>)

  datatype Policy = None_ | CompatibleOnly | PreviewAllowed | AnyExisting

  datatype MatchType = Exact | Compatible | Preview | GeneratedRequired

  datatype Reason = NoReason | Rule(entityType: string, requested: Family, candidate: Family, outcome: Outcome) | DebugAnyExisting

  datatype Result = Result(matchType: MatchType, asset: R.Option<Asset>, score: real, reason: Reason, recommended: bool)

  datatype Answer = InvalidPolicy(value: string) | SourceError | Answer(result: Result)

  datatype ExactLookup = Found(asset: Asset) | NotFound | LookupFailed

  /** What is asked for, and the classification tables it is judged by. */
  datatype Query = Query(vocabulary: Vocabulary, entityType: string, variantKey: string)

  datatype Scored = Scored(asset: Asset, outcome: Outcome, score: real, reason: Reason)

  const FALLBACK_RANK_NEVER := 1000

  const GENERATED := Result(GeneratedRequired, R.None, 0.0, NoReason, true)

  /** The empty policy means compatible_only; anything unknown is an error. */
  function ParsePolicy(p: string): R.Option<Policy> {
    if p == "" || p == "compatible_only" then R.Some(CompatibleOnly)
    else if p == "none" then R.Some(None_)
    else if p == "preview_allowed" then R.Some(PreviewAllowed)
    else if p == "any_existing" then R.Some(AnyExisting)
    else R.None
  }

  predicate Reusable(c: Asset) {
    c.ready && !c.anchor
  }

  predicate Allowed(outcome: Outcome, policy: Policy) {
    match policy
    case None_ => false
    case CompatibleOnly => outcome == CompatibleMatch
    case _ => outcome == CompatibleMatch || outcome == PreviewFallback
  }

  function Tier(outcome: Outcome): nat {
    match outcome
    case ExactMatch => 3
    case CompatibleMatch => 2
    case PreviewFallback => 1
    case InvalidMatch => 0
  }

  function RankOf(a: Asset): int {
    a.fallbackRank.GetOr(FALLBACK_RANK_NEVER)
  }

  function VerdictOn(q: Query, c: Asset): Verdict {
    CompareVariants(q.entityType, ClassifyVariant(q.vocabulary, q.entityType, q.variantKey),
                    ClassifyVariant(q.vocabulary, q.entityType, c.variantKey))
  }

  /** What bestMatch makes of one candidate: skipped, or scored under the matrix verdict. */
  function Judge(q: Query, policy: Policy, c: Asset): R.Option<Scored> {
    var v := VerdictOn(q, c);
    if !Reusable(c) || v.outcome == ExactMatch || !Allowed(v.outcome, policy) then R.None
    else R.Some(Scored(c, v.outcome, v.score,
                       Rule(q.entityType, ClassifyVariant(q.vocabulary, q.entityType, q.variantKey).family,
                            ClassifyVariant(q.vocabulary, q.entityType, c.variantKey).family, v.outcome)))
  }

  /** What bestAnyExisting makes of one candidate: any reusable one whose key differs. */
  function JudgeAny(q: Query, c: Asset): R.Option<Scored> {
    var v := VerdictOn(q, c);
    if !Reusable(c) || v.outcome == ExactMatch then R.None
    else R.Some(Scored(c, PreviewFallback, v.score, DebugAnyExisting))
  }

  function Qualifying(q: Query, policy: Policy, cs: seq<Asset>): seq<Scored> {
    if cs == [] then []
    else
      var rest := Qualifying(q, policy, cs[..|cs| - 1]);
      match Judge(q, policy, cs[|cs| - 1])
      case Some(s) => rest + [s]
      case None => rest
  }

  function Pool(q: Query, cs: seq<Asset>): seq<Scored> {
    if cs == [] then []
    else
      var rest := Pool(q, cs[..|cs| - 1]);
      match JudgeAny(q, cs[|cs| - 1])
      case Some(s) => rest + [s]
      case None => rest
  }

  /** The deterministic order: tier, then score, then fallback rank, then id. */
  predicate Before(a: Scored, b: Scored) {
    if Tier(a.outcome) != Tier(b.outcome) then Tier(a.outcome) > Tier(b.outcome)
    else if a.score != b.score then a.score > b.score
    else if RankOf(a.asset) != RankOf(b.asset) then RankOf(a.asset) < RankOf(b.asset)
    else a.asset.id < b.asset.id
  }

  /** The head of a stable sort by Before: the first entry that none precedes. */
  function Best(s: seq<Scored>): Scored
    requires |s| > 0
  {
    if |s| == 1 then s[0]
    else
      var best := Best(s[..|s| - 1]);
      if Before(s[|s| - 1], best) then s[|s| - 1] else best
  }

  function ToResult(s: Scored, m: MatchType): Result {
    Result(m, R.Some(s.asset), s.score, s.reason, true)
  }

  function MatchOf(outcome: Outcome): MatchType {
    match outcome
    case ExactMatch => Exact
    case CompatibleMatch => Compatible
    case PreviewFallback => Preview
    case InvalidMatch => GeneratedRequired
  }

  /** The candidate stage, once there is no exact hit and the policy allows substitutes. */
  function Decide(q: Query, policy: Policy, cs: seq<Asset>): Result {
    var qualifying := Qualifying(q, policy, cs);
    if qualifying != [] then ToResult(Best(qualifying), MatchOf(Best(qualifying).outcome))
    else if policy == AnyExisting && Pool(q, cs) != [] then ToResult(Best(Pool(q, cs)), Preview)
    else GENERATED
  }

  function Retrieval(q: Query, policy: string, exact: ExactLookup, candidates: R.Option<seq<Asset>>): Answer {
    match ParsePolicy(policy)
    case None => InvalidPolicy(policy)
    case Some(p) =>
      match exact
      case Found(a) => Answer(Result(Exact, R.Some(a), 1.0, NoReason, false))
      case LookupFailed => SourceError
      case NotFound =>
        if p == None_ then Answer(GENERATED)
        else if candidates.None? then SourceError
        else Answer(Decide(q, p, candidates.value))
  }

  // The winner, stated without the fold -----------------------------------------------

  /** Before is transitive, and so is "not before": it orders any two entries consistently. */
  lemma BeforeIsWeakOrder(a: Scored, b: Scored, c: Scored)
    ensures !(Before(a, b) && Before(b, a))
    ensures Before(a, b) && Before(b, c) ==> Before(a, c)
    ensures !Before(a, b) && !Before(b, c) ==> !Before(a, c)
  {}

  /** Best is what a stable sort puts first: nothing precedes it, and it precedes all before it. */
  lemma {:induction false} BestIsFirstLeast(s: seq<Scored>) returns (k: nat)
    requires |s| > 0
    ensures k < |s| && s[k] == Best(s)
    ensures forall j :: 0 <= j < |s| ==> !Before(s[j], s[k])
    ensures forall j :: 0 <= j < k ==> Before(s[k], s[j])
  {
    if |s| == 1 {
      k := 0;
    } else {
      var last := s[|s| - 1];
      k := BestIsFirstLeast(s[..|s| - 1]);
      var best := s[k];
      if Before(last, best) {
        forall j | 0 <= j < |s| - 1 ensures Before(last, s[j]) && !Before(s[j], last) {
          BeforeIsWeakOrder(last, best, s[j]);
          BeforeIsWeakOrder(best, s[j], last);
          BeforeIsWeakOrder(s[j], last, best);
        }
        k := |s| - 1;
      }
    }
  }

  /** The preference the decision documents: tier, then score, then the lower rank, then the lower id. */
  lemma WinnerIsPreferred(s: seq<Scored>, x: Scored)
    requires |s| > 0 && x in s
    ensures
      var w := Best(s);
      && w in s
      && (w.outcome == PreviewFallback && x.outcome != PreviewFallback ==> x.outcome == InvalidMatch)
      && (w.outcome == CompatibleMatch ==> x.outcome != ExactMatch)
      && (w.outcome == x.outcome ==> w.score >= x.score)
      && (w.outcome == x.outcome && w.score == x.score ==> w.asset.fallbackRank.GetOr(1000) <= x.asset.fallbackRank.GetOr(1000))
      && (w.outcome == x.outcome && w.score == x.score && w.asset.fallbackRank.GetOr(1000) == x.asset.fallbackRank.GetOr(1000) ==>
            w.asset.id <= x.asset.id)
  {
    var k := BestIsFirstLeast(s);
    var j :| 0 <= j < |s| && s[j] == x;
    assert !Before(s[j], s[k]);
  }

  lemma {:induction false} QualifyingMembers(q: Query, policy: Policy, cs: seq<Asset>, s: Scored)
    ensures s in Qualifying(q, policy, cs) <==> s.asset in cs && Judge(q, policy, s.asset) == R.Some(s)
  {
    if cs != [] {
      QualifyingMembers(q, policy, cs[..|cs| - 1], s);
      assert cs == cs[..|cs| - 1] + [cs[|cs| - 1]];
    }
  }

  lemma {:induction false} PoolMembers(q: Query, cs: seq<Asset>, s: Scored)
    ensures s in Pool(q, cs) <==> s.asset in cs && JudgeAny(q, s.asset) == R.Some(s)
  {
    if cs != [] {
      PoolMembers(q, cs[..|cs| - 1], s);
      assert cs == cs[..|cs| - 1] + [cs[|cs| - 1]];
    }
  }

  // Order independence ----------------------------------------------------------------

  ghost predicate DistinctIds(cs: seq<Asset>) {
    forall a, b :: a in cs && b in cs && a.id == b.id ==> a == b
  }

  ghost predicate SameAssets(cs: seq<Asset>, ds: seq<Asset>) {
    forall a :: a in cs <==> a in ds
  }

  lemma BestAgrees(s: seq<Scored>, t: seq<Scored>)
    requires |s| > 0 && |t| > 0 && forall x :: x in s <==> x in t
    requires forall x, y :: x in s && y in s && x.asset.id == y.asset.id ==> x == y
    ensures Best(s) == Best(t)
  {
    var j := BestIsFirstLeast(s);
    var k := BestIsFirstLeast(t);
    assert s[j] in t && t[k] in s;
    var i :| 0 <= i < |t| && t[i] == s[j];
    var l :| 0 <= l < |s| && s[l] == t[k];
    assert !Before(t[i], t[k]) && !Before(s[l], s[j]);
  }

  lemma MembersAgree(q: Query, policy: Policy, cs: seq<Asset>, ds: seq<Asset>)
    requires SameAssets(cs, ds)
    ensures forall s :: s in Qualifying(q, policy, cs) <==> s in Qualifying(q, policy, ds)
    ensures forall s :: s in Pool(q, cs) <==> s in Pool(q, ds)
  {
    forall s ensures s in Qualifying(q, policy, cs) <==> s in Qualifying(q, policy, ds) {
      QualifyingMembers(q, policy, cs, s);
      QualifyingMembers(q, policy, ds, s);
    }
    forall s ensures s in Pool(q, cs) <==> s in Pool(q, ds) {
      PoolMembers(q, cs, s);
      PoolMembers(q, ds, s);
    }
  }

  lemma ScoredOnce(q: Query, policy: Policy, cs: seq<Asset>)
    requires DistinctIds(cs)
    ensures forall x, y :: x in Qualifying(q, policy, cs) && y in Qualifying(q, policy, cs) && x.asset.id == y.asset.id ==> x == y
    ensures forall x, y :: x in Pool(q, cs) && y in Pool(q, cs) && x.asset.id == y.asset.id ==> x == y
  {
    forall x, y | x in Qualifying(q, policy, cs) && y in Qualifying(q, policy, cs) && x.asset.id == y.asset.id ensures x == y {
      QualifyingMembers(q, policy, cs, x);
      QualifyingMembers(q, policy, cs, y);
    }
    forall x, y | x in Pool(q, cs) && y in Pool(q, cs) && x.asset.id == y.asset.id ensures x == y {
      PoolMembers(q, cs, x);
      PoolMembers(q, cs, y);
    }
  }

  lemma SameEmptiness<T>(s: seq<T>, t: seq<T>)
    requires forall x :: x in s <==> x in t
    ensures s == [] <==> t == []
  {
    if s != [] {
      assert s[0] in t;
    }
    if t != [] {
      assert t[0] in s;
    }
  }

  /** With distinct ids the decision depends on which candidates there are, not on their order or repetition. */
  lemma OrderIndependence(q: Query, policy: string, exact: ExactLookup, cs: seq<Asset>, ds: seq<Asset>)
    requires SameAssets(cs, ds) && DistinctIds(cs)
    ensures Retrieval(q, policy, exact, R.Some(cs)) == Retrieval(q, policy, exact, R.Some(ds))
  {
    if ParsePolicy(policy).Some? {
      var p := ParsePolicy(policy).value;
      MembersAgree(q, p, cs, ds);
      ScoredOnce(q, p, cs);
      SameEmptiness(Qualifying(q, p, cs), Qualifying(q, p, ds));
      SameEmptiness(Pool(q, cs), Pool(q, ds));
      if Qualifying(q, p, cs) != [] {
        BestAgrees(Qualifying(q, p, cs), Qualifying(q, p, ds));
      }
      if Pool(q, cs) != [] {
        BestAgrees(Pool(q, cs), Pool(q, ds));
      }
    }
  }

  /** That ids are distinct, as a primary key makes them, is needed: two assets that share one let order decide. */
  lemma SharedIdMatters() returns (q: Query, cs: seq<Asset>, ds: seq<Asset>)
    ensures SameAssets(cs, ds) && !DistinctIds(cs)
    ensures Decide(q, CompatibleOnly, cs) != Decide(q, CompatibleOnly, ds)
  {
    var front := Spec(Neutral, Tags("front", "", "", ""), true);
    q := Query(map[("character", "want") := front, ("character", "a") := front, ("character", "b") := front],
               "character", "want");
    var a, b := Asset(1, "a", true, false, R.None), Asset(1, "b", true, false, R.None);
    cs, ds := [a, b], [b, a];
    assert cs[..1] == [a] && ds[..1] == [b];
    assert Qualifying(q, CompatibleOnly, [a]) == [Judge(q, CompatibleOnly, a).value];
    assert Qualifying(q, CompatibleOnly, [b]) == [Judge(q, CompatibleOnly, b).value];
    var x, y := Judge(q, CompatibleOnly, a).value, Judge(q, CompatibleOnly, b).value;
    assert Qualifying(q, CompatibleOnly, cs) == [x, y] && Qualifying(q, CompatibleOnly, ds) == [y, x];
    assert [x, y][..1] == [x] && [y, x][..1] == [y];
    assert a in cs && b in cs && !Before(x, y) && !Before(y, x);
    assert Best([x]) == x && Best([y]) == y;
    assert Best([x, y]) == x && Best([y, x]) == y;
  }

  // Policies --------------------------------------------------------------------------

  function Looseness(p: Policy): nat {
    match p
    case None_ => 0
    case CompatibleOnly => 1
    case PreviewAllowed => 2
    case AnyExisting => 3
  }

  ghost predicate Led(strict: seq<Scored>, loose: seq<Scored>) {
    && (forall s :: s in strict ==> s.outcome == CompatibleMatch)
    && (strict == [] ==> forall s :: s in loose ==> s.outcome == PreviewFallback)
    && (strict != [] ==> loose != [] && Best(loose) == Best(strict) && Best(strict).outcome == CompatibleMatch)
  }

  lemma ExtendLed(strict: seq<Scored>, loose: seq<Scored>, s: Scored)
    requires Led(strict, loose)
    ensures s.outcome == CompatibleMatch ==> Led(strict + [s], loose + [s])
    ensures s.outcome == PreviewFallback ==> Led(strict, loose + [s])
  {
    assert (strict + [s])[..|strict|] == strict && (loose + [s])[..|loose|] == loose;
    if loose != [] {
      var k := BestIsFirstLeast(loose);
      assert loose[k] in loose;
    }
  }

  /** Previews never displace a compatible winner, and are all there is when none exists. */
  lemma {:induction false} PreviewsRankBelow(q: Query, policy: Policy, cs: seq<Asset>)
    requires policy == PreviewAllowed || policy == AnyExisting
    ensures Led(Qualifying(q, CompatibleOnly, cs), Qualifying(q, policy, cs))
  {
    if cs != [] {
      var init, c := cs[..|cs| - 1], cs[|cs| - 1];
      PreviewsRankBelow(q, policy, init);
      if Judge(q, policy, c).Some? {
        ExtendLed(Qualifying(q, CompatibleOnly, init), Qualifying(q, policy, init), Judge(q, policy, c).value);
      }
    }
  }

  lemma {:induction false} SamePoolForPolicies(q: Query, cs: seq<Asset>)
    ensures Qualifying(q, PreviewAllowed, cs) == Qualifying(q, AnyExisting, cs)
  {
    if cs != [] {
      SamePoolForPolicies(q, cs[..|cs| - 1]);
    }
  }

  /** Relaxing the policy never changes a hit already found. */
  lemma RelaxingKeepsHits(q: Query, tight: string, loose: string, exact: ExactLookup, candidates: R.Option<seq<Asset>>)
    requires ParsePolicy(tight).Some? && ParsePolicy(loose).Some?
    requires Looseness(ParsePolicy(tight).value) <= Looseness(ParsePolicy(loose).value)
    requires var a := Retrieval(q, tight, exact, candidates); a.Answer? && a.result.asset.Some?
    ensures Retrieval(q, loose, exact, candidates) == Retrieval(q, tight, exact, candidates)
  {
    if exact.NotFound? {
      var cs := candidates.value;
      SamePoolForPolicies(q, cs);
      PreviewsRankBelow(q, PreviewAllowed, cs);
    }
  }

  // Safety and completeness -----------------------------------------------------------

  /**
   * A substitute is always a ready, non-anchor asset of another key, flagged as worth
   * regenerating; one the matrix calls invalid is served only under any_existing, and then
   * only when no candidate qualifies.
   */
  lemma SubstitutesAreSafe(q: Query, policy: Policy, cs: seq<Asset>)
    requires Decide(q, policy, cs).asset.Some?
    ensures
      var r := Decide(q, policy, cs);
      var a := r.asset.value;
      && a in cs && Reusable(a) && a.variantKey != q.variantKey
      && r.recommended && r.score == VerdictOn(q, a).score < 1.0
      && (r.matchType == Compatible ==> VerdictOn(q, a).outcome == CompatibleMatch)
      && r.matchType in {Compatible, Preview}
      && (VerdictOn(q, a).outcome == InvalidMatch ==>
            policy == AnyExisting && forall c :: c in cs ==> Judge(q, policy, c).None?)
  {
    if Qualifying(q, policy, cs) != [] {
      var k := BestIsFirstLeast(Qualifying(q, policy, cs));
      QualifyingMembers(q, policy, cs, Qualifying(q, policy, cs)[k]);
    } else {
      var k := BestIsFirstLeast(Pool(q, cs));
      PoolMembers(q, cs, Pool(q, cs)[k]);
      NothingQualifies(q, policy, cs);
    }
  }

  lemma {:induction false} NothingQualifies(q: Query, policy: Policy, cs: seq<Asset>)
    ensures Qualifying(q, policy, cs) == [] <==> forall c :: c in cs ==> Judge(q, policy, c).None?
    ensures Pool(q, cs) == [] <==> forall c :: c in cs ==> JudgeAny(q, c).None?
  {
    if cs != [] {
      NothingQualifies(q, policy, cs[..|cs| - 1]);
      assert cs == cs[..|cs| - 1] + [cs[|cs| - 1]];
    }
  }

  /** Generation is required exactly when no candidate is usable under the policy. */
  lemma GeneratesOnlyWhenForced(q: Query, policy: Policy, cs: seq<Asset>)
    ensures Decide(q, policy, cs).asset.None? <==>
            forall c :: c in cs ==> Judge(q, policy, c).None? && (policy == AnyExisting ==> JudgeAny(q, c).None?)
  {
    NothingQualifies(q, policy, cs);
  }

  // What each policy promises ---------------------------------------------------------

  /** A candidate that may be served at all: ready, no anchor, and not the requested key. */
  predicate Usable(q: Query, c: Asset) {
    c.ready && !c.anchor && c.variantKey != q.variantKey
  }

  /** Some usable candidate with one of these verdicts. */
  ghost predicate Offers(q: Query, cs: seq<Asset>, outcomes: set<Outcome>) {
    exists c :: c in cs && Usable(q, c) && VerdictOn(q, c).outcome in outcomes
  }

  /** The matrix rule that admitted a candidate, by the families of both keys; a bare mark for one the matrix forbids. */
  function ReasonFor(q: Query, c: Asset): Reason {
    if VerdictOn(q, c).outcome == InvalidMatch then DebugAnyExisting
    else Rule(q.entityType, FamilyOf(q, q.variantKey), FamilyOf(q, c.variantKey), VerdictOn(q, c).outcome)
  }

  function FamilyOf(q: Query, key: string): Family {
    if (q.entityType, key) in q.vocabulary then q.vocabulary[(q.entityType, key)].family else Unknown
  }

  /** The answer serves a usable candidate with one of these verdicts, or demands generation because there is none. */
  ghost predicate ServesFrom(a: Answer, q: Query, cs: seq<Asset>, outcomes: set<Outcome>) {
    && a.Answer? && a.result.recommended
    && match a.result.asset
       case None => a.result == GENERATED && !Offers(q, cs, outcomes)
       case Some(c) =>
         && c in cs && Usable(q, c) && VerdictOn(q, c).outcome in outcomes && a.result.score == VerdictOn(q, c).score
         && a.result.reason == ReasonFor(q, c)
         && a.result.matchType == (if VerdictOn(q, c).outcome == CompatibleMatch then Compatible else Preview)
         // A compatible candidate goes before any other, and a preview before an invalid one.
         && (VerdictOn(q, c).outcome != CompatibleMatch ==> !Offers(q, cs, {CompatibleMatch}))
         && (VerdictOn(q, c).outcome == InvalidMatch ==> !Offers(q, cs, {PreviewFallback}))
  }

  predicate KnownPolicy(policy: string) {
    policy in {"", "none", "compatible_only", "preview_allowed", "any_existing"}
  }

  /**
   * What the caller of each policy is promised. An exact hit is served as it is under every one of
   * them. Without one: `none` generates, without reading a candidate; `compatible_only`, and no policy
   * at all, serve a compatible candidate; `preview_allowed` a preview as well; `any_existing` whatever
   * is usable; and each generates only when there is none. Any other policy is an error.
   */
  lemma PoliciesKeepPromises(q: Query, policy: string, exact: ExactLookup, cs: seq<Asset>)
    ensures !KnownPolicy(policy) ==> Retrieval(q, policy, exact, R.Some(cs)) == InvalidPolicy(policy)
    ensures KnownPolicy(policy) && exact.Found? ==>
              Retrieval(q, policy, exact, R.Some(cs)) == Answer(Result(Exact, R.Some(exact.asset), 1.0, NoReason, false))
    ensures KnownPolicy(policy) && exact.LookupFailed? ==> Retrieval(q, policy, exact, R.Some(cs)) == SourceError
    ensures policy == "none" && exact.NotFound? ==>
              Retrieval(q, policy, exact, R.Some(cs)) == Retrieval(q, policy, exact, R.None) == Answer(GENERATED)
    ensures policy in {"", "compatible_only"} && exact.NotFound? ==>
              ServesFrom(Retrieval(q, policy, exact, R.Some(cs)), q, cs, {CompatibleMatch})
    ensures policy == "preview_allowed" && exact.NotFound? ==>
              ServesFrom(Retrieval(q, policy, exact, R.Some(cs)), q, cs, {CompatibleMatch, PreviewFallback})
    ensures policy == "any_existing" && exact.NotFound? ==>
              ServesFrom(Retrieval(q, policy, exact, R.Some(cs)), q, cs, {CompatibleMatch, PreviewFallback, InvalidMatch})
    ensures KnownPolicy(policy) && policy != "none" && exact.NotFound? ==> Retrieval(q, policy, exact, R.None) == SourceError
  {
    if exact.NotFound? && KnownPolicy(policy) && policy != "none" {
      DecideServes(q, ParsePolicy(policy).value, cs);
    }
  }

  function Servable(policy: Policy): set<Outcome> {
    match policy
    case None_ => {}
    case CompatibleOnly => {CompatibleMatch}
    case PreviewAllowed => {CompatibleMatch, PreviewFallback}
    case AnyExisting => {CompatibleMatch, PreviewFallback, InvalidMatch}
  }

  lemma UsableIsJudged(q: Query, policy: Policy, c: Asset)
    requires policy != None_
    ensures Judge(q, policy, c).Some? <==> Usable(q, c) && VerdictOn(q, c).outcome in Servable(policy) - {InvalidMatch}
    ensures JudgeAny(q, c).Some? <==> Usable(q, c)
    ensures Usable(q, c) ==> VerdictOn(q, c).outcome != ExactMatch
  {}

  lemma DecideServes(q: Query, policy: Policy, cs: seq<Asset>)
    requires policy != None_
    ensures ServesFrom(Answer(Decide(q, policy, cs)), q, cs, Servable(policy))
  {
    forall c ensures Judge(q, policy, c).Some? <==> Usable(q, c) && VerdictOn(q, c).outcome in Servable(policy) - {InvalidMatch} {
      UsableIsJudged(q, policy, c);
    }
    forall c ensures JudgeAny(q, c).Some? <==> Usable(q, c) {
      UsableIsJudged(q, policy, c);
    }
    NothingQualifies(q, policy, cs);
    if Qualifying(q, policy, cs) != [] {
      BestServes(q, policy, cs);
    } else if policy == AnyExisting && Pool(q, cs) != [] {
      var k := BestIsFirstLeast(Pool(q, cs));
      PoolMembers(q, cs, Pool(q, cs)[k]);
      UsableIsJudged(q, policy, Best(Pool(q, cs)).asset);
    } else {
      forall c | c in cs && Usable(q, c) ensures VerdictOn(q, c).outcome !in Servable(policy) {
        UsableIsJudged(q, policy, c);
        assert Judge(q, policy, c).None?;
      }
    }
  }

  lemma BestServes(q: Query, policy: Policy, cs: seq<Asset>)
    requires policy != None_ && Qualifying(q, policy, cs) != []
    ensures var w := Best(Qualifying(q, policy, cs));
      && w.asset in cs && Usable(q, w.asset) && VerdictOn(q, w.asset) == Verdict(w.outcome, w.score)
      && w.outcome in Servable(policy) - {InvalidMatch} && w.reason == ReasonFor(q, w.asset)
      && (w.outcome != CompatibleMatch ==> !Offers(q, cs, {CompatibleMatch}))
  {
    var s := Qualifying(q, policy, cs);
    var k := BestIsFirstLeast(s);
    QualifyingMembers(q, policy, cs, s[k]);
    UsableIsJudged(q, policy, s[k].asset);
    forall c | c in cs && Usable(q, c) && VerdictOn(q, c).outcome == CompatibleMatch ensures s[k].outcome == CompatibleMatch {
      UsableIsJudged(q, policy, c);
      QualifyingMembers(q, policy, cs, Judge(q, policy, c).value);
      WinnerIsPreferred(s, Judge(q, policy, c).value);
    }
  }

  // The algorithm ---------------------------------------------------------------------

  method PickBest(entries: seq<Scored>) returns (best: Scored)
    requires |entries| > 0
    ensures best == Best(entries)
  {
    best := entries[0];
    var k := 1;
    while k < |entries|
      invariant 1 <= k <= |entries|
      invariant best == Best(entries[..k])
    {
      assert entries[..k + 1][..k] == entries[..k];
      if Before(entries[k], best) {
        best := entries[k];
      }
      k := k + 1;
    }
    assert entries[..k] == entries;
  }

  method BestMatch(q: Query, policy: Policy, cs: seq<Asset>) returns (r: R.Option<Result>)
    ensures var s := Qualifying(q, policy, cs);
            r == if s == [] then R.None else R.Some(ToResult(Best(s), MatchOf(Best(s).outcome)))
  {
    var requested := ClassifyVariant(q.vocabulary, q.entityType, q.variantKey);
    var qualifying: seq<Scored> := [];
    var i := 0;
    while i < |cs|
      invariant 0 <= i <= |cs|
      invariant qualifying == Qualifying(q, policy, cs[..i])
    {
      var c := cs[i];
      assert cs[..i + 1][..i] == cs[..i];
      i := i + 1;
      if !Reusable(c) {
        continue;
      }
      var candidate := ClassifyVariant(q.vocabulary, q.entityType, c.variantKey);
      var verdict := CompareVariants(q.entityType, requested, candidate);
      if verdict.outcome == ExactMatch || !Allowed(verdict.outcome, policy) {
        continue;
      }
      qualifying := qualifying
        + [Scored(c, verdict.outcome, verdict.score, Rule(q.entityType, requested.family, candidate.family, verdict.outcome))];
    }
    assert cs[..i] == cs;
    if |qualifying| == 0 {
      return R.None;
    }
    var best := PickBest(qualifying);
    return R.Some(ToResult(best, MatchOf(best.outcome)));
  }

  method BestAnyExisting(q: Query, cs: seq<Asset>) returns (r: R.Option<Result>)
    ensures r == if Pool(q, cs) == [] then R.None else R.Some(ToResult(Best(Pool(q, cs)), Preview))
  {
    var requested := ClassifyVariant(q.vocabulary, q.entityType, q.variantKey);
    var pool: seq<Scored> := [];
    var i := 0;
    while i < |cs|
      invariant 0 <= i <= |cs|
      invariant pool == Pool(q, cs[..i])
    {
      var c := cs[i];
      assert cs[..i + 1][..i] == cs[..i];
      i := i + 1;
      if !Reusable(c) {
        continue;
      }
      var verdict := CompareVariants(q.entityType, requested, ClassifyVariant(q.vocabulary, q.entityType, c.variantKey));
      if verdict.outcome == ExactMatch {
        continue;
      }
      pool := pool + [Scored(c, PreviewFallback, verdict.score, DebugAnyExisting)];
    }
    assert cs[..i] == cs;
    if |pool| == 0 {
      return R.None;
    }
    var best := PickBest(pool);
    return R.Some(ToResult(best, Preview));
  }

  method Retrieve(q: Query, policy: string, exact: ExactLookup, candidates: R.Option<seq<Asset>>) returns (a: Answer)
    ensures a == Retrieval(q, policy, exact, candidates)
    ensures KnownPolicy(policy) && exact.NotFound? && policy != "none" && candidates.Some? ==>
              ServesFrom(a, q, candidates.value, if policy in {"", "compatible_only"} then {CompatibleMatch}
                                                 else if policy == "preview_allowed" then {CompatibleMatch, PreviewFallback}
                                                 else {CompatibleMatch, PreviewFallback, InvalidMatch})
  {
    PoliciesKeepPromises(q, policy, exact, candidates.GetOr([]));
    var parsed := ParsePolicy(policy);
    if parsed.None? {
      return InvalidPolicy(policy);
    }
    match exact
    case Found(asset) =>
      return Answer(Result(Exact, R.Some(asset), 1.0, NoReason, false));
    case LookupFailed =>
      return SourceError;
    case NotFound =>
      if parsed.value == None_ {
        return Answer(GENERATED);
      }
      if candidates.None? {
        return SourceError;
      }
      var best := BestMatch(q, parsed.value, candidates.value);
      if best.None? && parsed.value == AnyExisting {
        best := BestAnyExisting(q, candidates.value);
      }
      return Answer(if best.Some? then best.value else GENERATED);
  }
}
