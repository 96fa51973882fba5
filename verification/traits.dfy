/** Trait inference (`Big5Calculator.calculateFromTags`). Every trait starts at
    the neutral 50. For each trait, the tags whose id contains one of the
    trait's keywords are collected; if there is at least one, the trait moves by
    five per such tag plus `(intensity - 3) * 2` per such tag. The five results
    are then clamped to [0, 100].

    The keyword table and the loop are the same text in both generator copies
    (src/services/characterGenerator8D.ts and character/generator.ts), so this
    one definition models both. */
module Traits {
  import opened Common
  import opened Profiles

  /** The keyword table: a tag counts for a trait when its id contains one of
      these strings (case-sensitive). */
  function Keywords(d: Dimension): seq<string> {
    match d
    case Extraversion => [
      "public.settings.party",
      "public.activities.remoteControl",
      "public.activities.publicNudity",
      "roleplay.petplay",
      "extreme.transformation",
      "psychological.emotions.euphoria"]
    case Openness => [
      "extreme.vore",
      "extreme.inflation",
      "extreme.transformation",
      "roleplay.ageplay",
      "roleplay.petplay.animals",
      "psychological.emotions.euphoria",
      "roleplay.medicalPlay"]
    case Conscientiousness => [
      "bdsm.domSub.powerDyn.tpe24",
      "bdsm.domSub.powerDyn.highProtocol",
      "context.frequency.always",
      "context.duration.permanent",
      "bdsm.domSub.powerDyn.masterSlave",
      "bodily.saliva"]
    case Agreeableness => [
      "bdsm.domSub.domStyles.caringDomme",
      "objectification.service",
      "psychological.emotions.caregiving",
      "bdsm.domSub.subStyles.serviceSub",
      "bdsm.domSub.domStyles.serviceTop"]
    case Neuroticism => [
      "psychological.emotions.fear",
      "psychological.emotions.shame",
      "psychological.emotions.humiliation",
      "extreme.asphyxiation",
      "bdsm.deprivation.sensory.breathing"]
  }

  /** `keywords.some(k => t.tagId.includes(k))`. */
  predicate Hits(t: TagSelection, keywords: seq<string>) {
    exists k | k in keywords :: Contains(t.tagId, k)
  }

  /** `tags.filter(t => keywords.some(k => t.tagId.includes(k)))`. */
  function Matched(tags: seq<TagSelection>, keywords: seq<string>): (m: seq<TagSelection>)
    ensures |m| <= |tags|
    ensures forall t :: t in m ==> t in tags && Hits(t, keywords)
  {
    if tags == [] then []
    else (if Hits(tags[0], keywords) then [tags[0]] else []) + Matched(tags[1..], keywords)
  }

  /** `.reduce((sum, t) => sum + (t.intensity - 3) * 2, 0)`. */
  function IntensityBoost(tags: seq<TagSelection>): int {
    if tags == [] then 0 else (tags[0].intensity - 3) * 2 + IntensityBoost(tags[1..])
  }

  /** One trait: the baseline, the boost when some tag matched, the clamp. */
  function DimensionScore(tags: seq<TagSelection>, d: Dimension): (r: int)
    ensures 0 <= r <= 100
    ensures tags == [] ==> r == 50
  {
    var matched := Matched(tags, Keywords(d));
    var raw := 50 + (if |matched| > 0 then |matched| * 5 + IntensityBoost(matched) else 0);
    ClampInt(raw, 0, 100)
  }

  /** `calculateFromTags`: all five traits. */
  function CalculateFromTags(tags: seq<TagSelection>): (r: Big5)
    ensures r.InRange()
    ensures tags == [] ==> r == Neutral
    ensures forall d :: r.Get(d) == DimensionScore(tags, d)
  {
    var r := Big5(
      DimensionScore(tags, Extraversion),
      DimensionScore(tags, Openness),
      DimensionScore(tags, Conscientiousness),
      DimensionScore(tags, Agreeableness),
      DimensionScore(tags, Neuroticism));
    ScoresByDimension(tags, r);
    r
  }

  lemma ScoresByDimension(tags: seq<TagSelection>, r: Big5)
    requires r == Big5(
      DimensionScore(tags, Extraversion),
      DimensionScore(tags, Openness),
      DimensionScore(tags, Conscientiousness),
      DimensionScore(tags, Agreeableness),
      DimensionScore(tags, Neuroticism))
    ensures forall d :: r.Get(d) == DimensionScore(tags, d)
  {
    forall d ensures r.Get(d) == DimensionScore(tags, d) {
      match d
      case Extraversion =>
      case Openness =>
      case Conscientiousness =>
      case Agreeableness =>
      case Neuroticism =>
    }
  }

  // ---------------------------------------------------------------------------
  // A per-tag reference definition
  // ---------------------------------------------------------------------------

  /** What one tag adds to a trait: `5 + (intensity - 3) * 2 = 2 * intensity - 1`
      when it matches, nothing otherwise. */
  function Contribution(t: TagSelection, d: Dimension): int {
    if Hits(t, Keywords(d)) then 2 * t.intensity - 1 else 0
  }

  /** The sum of the per-tag contributions. */
  function TotalContribution(tags: seq<TagSelection>, d: Dimension): int {
    SumBy(tags, (t: TagSelection) => Contribution(t, d))
  }

  lemma {:induction false} MatchedBoostIsContribution(tags: seq<TagSelection>, d: Dimension)
    ensures |Matched(tags, Keywords(d))| * 5 + IntensityBoost(Matched(tags, Keywords(d)))
            == TotalContribution(tags, d)
  {
    var ks := Keywords(d);
    if tags != [] {
      MatchedBoostIsContribution(tags[1..], d);
      var head := if Hits(tags[0], ks) then [tags[0]] else [];
      var rest := Matched(tags[1..], ks);
      assert Matched(tags, ks) == head + rest;
      if Hits(tags[0], ks) {
        assert (head + rest)[1..] == rest;
      } else {
        assert head + rest == rest;
      }
    }
  }

  /** Each trait is the neutral 50 plus the per-tag contributions, clamped. The
      `matchCount > 0` guard of the source changes nothing: without a match the
      boost is zero anyway. */
  lemma ScoreIsClampedContribution(tags: seq<TagSelection>, d: Dimension)
    ensures CalculateFromTags(tags).Get(d) == ClampInt(50 + TotalContribution(tags, d), 0, 100)
  {
    MatchedBoostIsContribution(tags, d);
  }

  lemma {:induction false} NoHitNoContribution(tags: seq<TagSelection>, d: Dimension)
    requires forall t :: t in tags ==> !Hits(t, Keywords(d))
    ensures TotalContribution(tags, d) == 0
  {
    if tags != [] {
      assert tags[0] in tags;
      assert forall t :: t in tags[1..] ==> t in tags;
      NoHitNoContribution(tags[1..], d);
    }
  }

  /** Intensities as the request schema admits them. */
  predicate ValidIntensities(tags: seq<TagSelection>) {
    forall t :: t in tags ==> 1 <= t.intensity <= 5
  }

  lemma {:induction false} ContributionPositiveIffHit(tags: seq<TagSelection>, d: Dimension)
    requires ValidIntensities(tags)
    ensures TotalContribution(tags, d) >= 0
    ensures TotalContribution(tags, d) > 0 <==> exists t :: t in tags && Hits(t, Keywords(d))
  {
    if tags != [] {
      assert tags[0] in tags;
      assert forall t :: t in tags[1..] ==> t in tags;
      ContributionPositiveIffHit(tags[1..], d);
      if exists t :: t in tags && Hits(t, Keywords(d)) {
        var t :| t in tags && Hits(t, Keywords(d));
        if t != tags[0] {
          assert t in tags[1..];
        }
      }
    }
  }

  /** A trait leaves 50 only when some tag id contains one of its keywords; with
      intensities in 1..5 every match pushes it up, so it then rises above 50. */
  lemma MovesOnlyOnHit(tags: seq<TagSelection>, d: Dimension)
    ensures (forall t :: t in tags ==> !Hits(t, Keywords(d))) ==>
              CalculateFromTags(tags).Get(d) == 50
    ensures ValidIntensities(tags) ==>
              (CalculateFromTags(tags).Get(d) > 50 <==> exists t :: t in tags && Hits(t, Keywords(d)))
  {
    ScoreIsClampedContribution(tags, d);
    if forall t :: t in tags ==> !Hits(t, Keywords(d)) {
      NoHitNoContribution(tags, d);
    }
    if ValidIntensities(tags) {
      ContributionPositiveIffHit(tags, d);
    }
  }

  // ---------------------------------------------------------------------------
  // Order independence
  // ---------------------------------------------------------------------------

  /** Reordering the tag list never changes any trait. */
  lemma PermutationInvariant(a: seq<TagSelection>, b: seq<TagSelection>)
    requires multiset(a) == multiset(b)
    ensures CalculateFromTags(a) == CalculateFromTags(b)
  {
    forall d ensures CalculateFromTags(a).Get(d) == CalculateFromTags(b).Get(d) {
      ScoreIsClampedContribution(a, d);
      ScoreIsClampedContribution(b, d);
      SumByPermutation(a, b, (t: TagSelection) => Contribution(t, d));
    }
  }

  // ---------------------------------------------------------------------------
  // The single-shibari example
  // ---------------------------------------------------------------------------

  const ShibariTag := TagSelection("bdsm.bondage.shibari", Must, 5, "bondage")

  /** The letters `bdsm.bondage.shibari` is spelt from. */
  const ShibariLetters: set<char> := {'b', 'd', 's', 'm', '.', 'o', 'n', 'a', 'g', 'e', 'h', 'i', 'r'}

  lemma ShibariSpelling()
    ensures forall j | 0 <= j < |ShibariTag.tagId| :: ShibariTag.tagId[j] in ShibariLetters
  {
  }

  /** No trait keyword occurs in `bdsm.bondage.shibari`: each keyword carries a
      character (at the index listed) outside the tag id's letters. */
  lemma ShibariMissesExtraversion()
    ensures !Hits(ShibariTag, Keywords(Extraversion))
  {
    ShibariSpelling();
    NoneContained(ShibariTag.tagId, Keywords(Extraversion), [0, 0, 0, 2, 1, 0], ShibariLetters);
  }

  lemma ShibariMissesOpenness()
    ensures !Hits(ShibariTag, Keywords(Openness))
  {
    ShibariSpelling();
    NoneContained(ShibariTag.tagId, Keywords(Openness), [1, 1, 1, 2, 2, 0, 2], ShibariLetters);
  }

  lemma ShibariMissesConscientiousness()
    ensures !Hits(ShibariTag, Keywords(Conscientiousness))
  {
    ShibariSpelling();
    NoneContained(ShibariTag.tagId, Keywords(Conscientiousness), [8, 8, 0, 0, 8, 4], ShibariLetters);
  }

  lemma ShibariMissesAgreeableness()
    ensures !Hits(ShibariTag, Keywords(Agreeableness))
  {
    ShibariSpelling();
    NoneContained(ShibariTag.tagId, Keywords(Agreeableness), [8, 2, 0, 8, 8], ShibariLetters);
  }

  lemma ShibariMissesNeuroticism()
    ensures !Hits(ShibariTag, Keywords(Neuroticism))
  {
    ShibariSpelling();
    NoneContained(ShibariTag.tagId, Keywords(Neuroticism), [0, 0, 0, 1, 7], ShibariLetters);
  }

  /** A lone `bdsm.bondage.shibari` tag leaves every trait at 50. */
  lemma ShibariStaysNeutral()
    ensures CalculateFromTags([ShibariTag]) == Neutral
  {
    ShibariMissesExtraversion();
    ShibariMissesOpenness();
    ShibariMissesConscientiousness();
    ShibariMissesAgreeableness();
    ShibariMissesNeuroticism();
    forall d ensures CalculateFromTags([ShibariTag]).Get(d) == 50 {
      MovesOnlyOnHit([ShibariTag], d);
    }
  }
}
