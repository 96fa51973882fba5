/** The compatibility score of matching/matching.ts (`calculate` and its five
    helpers): fetish overlap, personality, lifestyle, values and aesthetic
    sub-scores, a weighted overall score, and the 85/70/55/40 level ladder.
    Lifestyle, values and aesthetic only compare answers both people gave,
    and fall back to 50 when there is nothing to compare. */
module Matching {
  import opened Common
  import opened Profiles

  // ---------------------------------------------------------------------------
  // Fetish overlap
  // ---------------------------------------------------------------------------

  /** The must-have term: the share of A's must-haves that B selected at all,
      out of the larger must-have list, times 40; 20 when neither side has a
      must-have. */
  function MustScore(a: seq<TagSelection>, b: seq<TagSelection>): (r: real)
    ensures 0.0 <= r <= 40.0
  {
    var mustA, mustB := TagIdsOfType(a, Must), TagIdsOfType(b, Must);
    var required := MaxNat(|mustA|, |mustB|);
    if required > 0 then
      FractionInUnit(CountIn(mustA, TagIds(b)) as real, required as real);
      CountIn(mustA, TagIds(b)) as real / required as real * 40.0
    else 20.0
  }

  /** The exact term: the distinct ids both selected, out of the larger set
      of distinct ids, times 60. */
  function ExactScore(a: seq<TagSelection>, b: seq<TagSelection>): (r: real)
    requires |a| > 0
    ensures 0.0 <= r <= 60.0
  {
    var idsA, idsB := Dedup(TagIds(a)), Dedup(TagIds(b));
    assert TagIds(a)[0] in idsA;
    var most := MaxNat(|idsA|, |idsB|);
    FractionInUnit(CountIn(idsA, idsB) as real, most as real);
    CountIn(idsA, idsB) as real / most as real * 60.0
  }

  /** `calculateFetishOverlap`: 0 when either list is empty, otherwise the
      exact and the must-have terms, capped at 100. */
  function FetishOverlap(a: seq<TagSelection>, b: seq<TagSelection>): (r: real)
    ensures 0.0 <= r <= 100.0
    ensures a == [] || b == [] ==> r == 0.0
  {
    if |a| == 0 || |b| == 0 then 0.0
    else MinReal(100.0, ExactScore(a, b) + MustScore(a, b))
  }

  /** A count equal to its non-zero denominator is the full weight. */
  lemma FullShare(k: nat, n: nat, weight: real)
    requires n > 0 && k == n
    ensures k as real / MaxNat(n, n) as real * weight == weight
  {
  }

  lemma DistinctIdsNonEmpty(a: seq<TagSelection>)
    requires |a| > 0
    ensures |Dedup(TagIds(a))| > 0
  {
    assert TagIds(a)[0] in Dedup(TagIds(a));
  }

  /** Against itself, every distinct id is shared: the exact term is 60. */
  lemma ExactScoreOfSelf(a: seq<TagSelection>)
    requires |a| > 0
    ensures ExactScore(a, a) == 60.0
  {
    var ids := Dedup(TagIds(a));
    DistinctIdsNonEmpty(a);
    CountInSelf(ids, ids);
    FullShare(CountIn(ids, ids), |ids|, 60.0);
  }

  /** Against itself, every must-have is selected: the must term is 40 as
      soon as there is a must-have. */
  lemma MustScoreOfSelf(a: seq<TagSelection>)
    requires |TagIdsOfType(a, Must)| > 0
    ensures MustScore(a, a) == 40.0
  {
    var must := TagIdsOfType(a, Must);
    forall id | id in must ensures id in TagIds(a) {
      var t :| t in a && t.tagType == Must && t.tagId == id;
      var i :| 0 <= i < |a| && a[i] == t;
      assert TagIds(a)[i] == id;
    }
    CountInSelf(must, TagIds(a));
    FullShare(CountIn(must, TagIds(a)), |must|, 40.0);
  }

  /** A non-empty tag list of must-haves only scores 100 against itself. */
  lemma IdenticalMustsScoreFull(a: seq<TagSelection>)
    requires |a| > 0
    requires forall i | 0 <= i < |a| :: a[i].tagType == Must
    ensures FetishOverlap(a, a) == 100.0
  {
    MustListIsEveryTag(a);
    ExactScoreOfSelf(a);
    MustScoreOfSelf(a);
  }

  /** Without must-haves the must term is the flat 20, so a list against
      itself scores 80. */
  lemma SelfWithoutMustsScores80(a: seq<TagSelection>)
    requires |a| > 0 && |TagIdsOfType(a, Must)| == 0
    ensures FetishOverlap(a, a) == 80.0
  {
    ExactScoreOfSelf(a);
  }

  lemma {:induction false} MustListIsEveryTag(a: seq<TagSelection>)
    requires forall i | 0 <= i < |a| :: a[i].tagType == Must
    ensures |TagIdsOfType(a, Must)| == |a|
  {
    if a != [] {
      MustListIsEveryTag(a[1..]);
    }
  }

  /** No tag id of `a` is a tag id of `b`. */
  predicate SharesNoId(a: seq<TagSelection>, b: seq<TagSelection>) {
    forall i, j | 0 <= i < |a| && 0 <= j < |b| :: a[i].tagId != b[j].tagId
  }

  /** Lists that share no tag share no id. */
  lemma DisjointIds(a: seq<TagSelection>, b: seq<TagSelection>)
    requires SharesNoId(a, b)
    ensures forall id | id in TagIds(a) :: id !in TagIds(b)
  {
    forall id | id in TagIds(a) ensures id !in TagIds(b) {
      var i :| 0 <= i < |a| && TagIds(a)[i] == id;
      assert forall j | 0 <= j < |b| :: TagIds(b)[j] != id;
    }
  }

  lemma ExactScoreOfDisjoint(a: seq<TagSelection>, b: seq<TagSelection>)
    requires |a| > 0 && SharesNoId(a, b)
    ensures ExactScore(a, b) == 0.0
  {
    var idsA, idsB := Dedup(TagIds(a)), Dedup(TagIds(b));
    DisjointIds(a, b);
    assert forall id | id in idsA :: id !in idsB;
    CountInDisjoint(idsA, idsB);
  }

  lemma MustScoreOfDisjoint(a: seq<TagSelection>, b: seq<TagSelection>)
    requires SharesNoId(a, b)
    requires |TagIdsOfType(a, Must)| > 0 || |TagIdsOfType(b, Must)| > 0
    ensures MustScore(a, b) == 0.0
  {
    forall id | id in TagIdsOfType(a, Must) ensures id !in TagIds(b) {
      var t :| t in a && t.tagType == Must && t.tagId == id;
      var i :| 0 <= i < |a| && a[i] == t;
    }
    CountInDisjoint(TagIdsOfType(a, Must), TagIds(b));
  }

  /** Two lists sharing no id score 0 as soon as either side has a must-have. */
  lemma DisjointWithMustScoresZero(a: seq<TagSelection>, b: seq<TagSelection>)
    requires |a| > 0 && |b| > 0 && SharesNoId(a, b)
    requires |TagIdsOfType(a, Must)| > 0 || |TagIdsOfType(b, Must)| > 0
    ensures FetishOverlap(a, b) == 0.0
  {
    ExactScoreOfDisjoint(a, b);
    MustScoreOfDisjoint(a, b);
  }

  const TagX := TagSelection("x", Must, 3, "")
  const TagY := TagSelection("y", Must, 3, "")

  /** The id lists of the two example selections. */
  lemma ExampleIds()
    ensures TagIds([TagX]) == ["x"] && Dedup(["x"]) == ["x"]
    ensures TagIds([TagX.(tagType := Nice), TagY]) == ["x", "y"] && Dedup(["x", "y"]) == ["x", "y"]
    ensures TagIdsOfType([TagX], Must) == ["x"]
    ensures TagIdsOfType([TagX.(tagType := Nice), TagY], Must) == ["y"]
  {
    assert ["x", "y"][..1] == ["x"];
  }

  /** Only A's must-haves are looked up in B, so the score is not symmetric:
      [x must] against [x nice, y must] scores 70, the other way round 30. */
  lemma Asymmetric()
    ensures FetishOverlap([TagX], [TagX.(tagType := Nice), TagY]) == 70.0
    ensures FetishOverlap([TagX.(tagType := Nice), TagY], [TagX]) == 30.0
  {
    ExampleIds();
    assert CountIn(["x"], ["x", "y"]) == 1;
    assert CountIn(["x", "y"], ["x"]) == 1;
    assert CountIn(["y"], ["x"]) == 0;
  }

  // ---------------------------------------------------------------------------
  // Personality
  // ---------------------------------------------------------------------------

  /** The summed absolute trait differences. */
  function TraitGap(p: Big5, q: Big5): nat {
    Abs(p.extraversion - q.extraversion) + Abs(p.openness - q.openness)
      + Abs(p.conscientiousness - q.conscientiousness) + Abs(p.agreeableness - q.agreeableness)
      + Abs(p.neuroticism - q.neuroticism)
  }

  /** `calculatePersonalityCompatibility`: 100 minus the mean absolute trait
      difference, floored at 0. It is 100 exactly for equal traits. */
  function PersonalityCompat(p: Big5, q: Big5): (r: real)
    ensures 0.0 <= r <= 100.0
    ensures r == 100.0 <==> p == q
  {
    MaxReal(0.0, 100.0 - TraitGap(p, q) as real / 5.0)
  }

  lemma PersonalitySymmetric(p: Big5, q: Big5)
    ensures PersonalityCompat(p, q) == PersonalityCompat(q, p)
  {
  }

  /** A larger total difference never scores higher. */
  lemma PersonalityMonotone(p: Big5, q: Big5, p2: Big5, q2: Big5)
    requires TraitGap(p, q) <= TraitGap(p2, q2)
    ensures PersonalityCompat(p2, q2) <= PersonalityCompat(p, q)
  {
  }

  // ---------------------------------------------------------------------------
  // Lifestyle, values and aesthetic: compare what both answered
  // ---------------------------------------------------------------------------

  /** One questionnaire field as answered by each side. */
  type Answers = (Option<string>, Option<string>)

  predicate BothAnswered(p: Answers) {
    Truthy(p.0) && Truthy(p.1)
  }

  /** `total`: the fields both sides answered. */
  function Compared(ps: seq<Answers>): (n: nat)
    ensures n <= |ps|
  {
    if ps == [] then 0 else (if BothAnswered(ps[0]) then 1 else 0) + Compared(ps[1..])
  }

  /** `matches`: the fields both sides answered alike. */
  function Agreeing(ps: seq<Answers>): (n: nat)
    ensures n <= Compared(ps)
  {
    if ps == [] then 0
    else (if BothAnswered(ps[0]) && ps[0].0 == ps[0].1 then 1 else 0) + Agreeing(ps[1..])
  }

  /** `total > 0 ? (matches / total) * 100 : 50`. */
  function Ratio(matches: real, total: nat): (r: real)
    requires 0.0 <= matches <= total as real
    ensures 0.0 <= r <= 100.0
    ensures total == 0 ==> r == 50.0
    ensures total > 0 ==> (r == 100.0 <==> matches == total as real)
    ensures total > 0 ==> (r == 0.0 <==> matches == 0.0)
  {
    if total > 0 then matches / total as real * 100.0 else 50.0
  }

  function FieldScore(ps: seq<Answers>): (r: real)
    ensures 0.0 <= r <= 100.0
  {
    Ratio(Agreeing(ps) as real, Compared(ps))
  }

  function Swap(ps: seq<Answers>): (qs: seq<Answers>)
    ensures |qs| == |ps|
    ensures forall i | 0 <= i < |ps| :: qs[i] == (ps[i].1, ps[i].0)
  {
    if ps == [] then [] else [(ps[0].1, ps[0].0)] + Swap(ps[1..])
  }

  /** Which side is which does not matter to the counts. */
  lemma {:induction false} SwapKeepsCounts(ps: seq<Answers>)
    ensures Compared(Swap(ps)) == Compared(ps)
    ensures Agreeing(Swap(ps)) == Agreeing(ps)
  {
    if ps != [] {
      SwapKeepsCounts(ps[1..]);
      assert Swap(ps)[1..] == Swap(ps[1..]);
    }
  }

  /** Against itself every answered field agrees. */
  lemma {:induction false} SelfAgrees(ps: seq<Answers>)
    requires forall i | 0 <= i < |ps| :: ps[i].0 == ps[i].1
    ensures Agreeing(ps) == Compared(ps)
  {
    if ps != [] {
      SelfAgrees(ps[1..]);
    }
  }

  function LifestyleFields(l: Lifestyle, m: Lifestyle): seq<Answers> {
    [(l.housing, m.housing), (l.dailyRhythm, m.dailyRhythm), (l.energyLevel, m.energyLevel),
     (l.diet, m.diet), (l.fitness, m.fitness), (l.smoking, m.smoking), (l.alcohol, m.alcohol)]
  }

  function ValuesFields(l: Lifestyle, m: Lifestyle): seq<Answers> {
    [(l.politics, m.politics), (l.spirituality, m.spirituality), (l.environment, m.environment),
     (l.wantChildren, m.wantChildren)]
  }

  function AestheticFields(l: Lifestyle, m: Lifestyle): seq<Answers> {
    [(l.fashionStyle, m.fashionStyle), (l.hairStyle, m.hairStyle), (l.beard, m.beard)]
  }

  /** `calculateLifestyleAlignment` over housing, daily rhythm, energy, diet,
      fitness, smoking and alcohol. */
  function LifestyleAlignment(l: Lifestyle, m: Lifestyle): (r: real)
    ensures 0.0 <= r <= 100.0
    ensures Compared(LifestyleFields(l, m)) == 0 ==> r == 50.0
  {
    FieldScore(LifestyleFields(l, m))
  }

  /** `calculateValuesAlignment` over politics, spirituality, environment and
      the wish for children. */
  function ValuesAlignment(l: Lifestyle, m: Lifestyle): (r: real)
    ensures 0.0 <= r <= 100.0
    ensures Compared(ValuesFields(l, m)) == 0 ==> r == 50.0
  {
    FieldScore(ValuesFields(l, m))
  }

  /** The body-modification term: the distinct modifications both have, out
      of the larger set; absent unless both lists are given and one is
      non-empty. */
  function ModsOverlap(l: Lifestyle, m: Lifestyle): (f: Option<real>)
    ensures f.Some? ==> 0.0 <= f.value <= 1.0
    ensures f.Some? <==> l.bodyModifications.Some? && m.bodyModifications.Some?
                         && (l.bodyModifications.value != [] || m.bodyModifications.value != [])
  {
    match (l.bodyModifications, m.bodyModifications)
    case (Some(x), Some(y)) =>
      var dx, dy := Dedup(x), Dedup(y);
      var most := MaxNat(|dx|, |dy|);
      assert x != [] ==> x[0] in dx;
      assert y != [] ==> y[0] in dy;
      if most > 0 then
        FractionInUnit(CountIn(dx, dy) as real, most as real);
        Some(CountIn(dx, dy) as real / most as real)
      else None
    case _ => None
  }

  /** `calculateAestheticHarmony`: fashion, hair and beard, plus the
      body-modification fraction counted as one more field when present. */
  function AestheticHarmony(l: Lifestyle, m: Lifestyle): (r: real)
    ensures 0.0 <= r <= 100.0
    ensures Compared(AestheticFields(l, m)) == 0 && ModsOverlap(l, m).None? ==> r == 50.0
  {
    var ps := AestheticFields(l, m);
    match ModsOverlap(l, m)
    case None => Ratio(Agreeing(ps) as real, Compared(ps))
    case Some(f) => Ratio(Agreeing(ps) as real + f, Compared(ps) + 1)
  }

  /** The three questionnaire scores do not depend on who is first. */
  lemma AlignmentSymmetric(l: Lifestyle, m: Lifestyle)
    ensures LifestyleAlignment(l, m) == LifestyleAlignment(m, l)
    ensures ValuesAlignment(l, m) == ValuesAlignment(m, l)
    ensures Compared(AestheticFields(l, m)) == Compared(AestheticFields(m, l))
    ensures Agreeing(AestheticFields(l, m)) == Agreeing(AestheticFields(m, l))
  {
    SwapKeepsCounts(LifestyleFields(l, m));
    assert Swap(LifestyleFields(l, m)) == LifestyleFields(m, l);
    SwapKeepsCounts(ValuesFields(l, m));
    assert Swap(ValuesFields(l, m)) == ValuesFields(m, l);
    SwapKeepsCounts(AestheticFields(l, m));
    assert Swap(AestheticFields(l, m)) == AestheticFields(m, l);
  }

  /** The body-modification fraction and the aesthetic score do not depend on
      who is first: both compare distinct modifications over the larger set. */
  lemma AestheticSymmetric(l: Lifestyle, m: Lifestyle)
    ensures ModsOverlap(l, m) == ModsOverlap(m, l)
    ensures AestheticHarmony(l, m) == AestheticHarmony(m, l)
  {
    if l.bodyModifications.Some? && m.bodyModifications.Some? {
      CountInSymmetric(Dedup(l.bodyModifications.value), Dedup(m.bodyModifications.value));
    }
    SwapKeepsCounts(AestheticFields(l, m));
    assert Swap(AestheticFields(l, m)) == AestheticFields(m, l);
  }

  /** A questionnaire against itself scores 100 on lifestyle and values when
      it answers any of their fields, and 50 when it answers none. */
  lemma SelfAlignment(l: Lifestyle)
    ensures LifestyleAlignment(l, l) == if Compared(LifestyleFields(l, l)) > 0 then 100.0 else 50.0
    ensures ValuesAlignment(l, l) == if Compared(ValuesFields(l, l)) > 0 then 100.0 else 50.0
  {
    SelfAgrees(LifestyleFields(l, l));
    SelfAgrees(ValuesFields(l, l));
  }

  // ---------------------------------------------------------------------------
  // Overall score and level
  // ---------------------------------------------------------------------------

  datatype SubScores = SubScores(
    fetishOverlap: real,
    personalityCompat: real,
    lifestyleAlignment: real,
    valuesAlignment: real,
    aestheticHarmony: real)
  {
    predicate InRange() {
      && 0.0 <= fetishOverlap <= 100.0 && 0.0 <= personalityCompat <= 100.0
      && 0.0 <= lifestyleAlignment <= 100.0 && 0.0 <= valuesAlignment <= 100.0
      && 0.0 <= aestheticHarmony <= 100.0
    }
  }

  const FetishWeight := 0.40
  const PersonalityWeight := 0.15
  const LifestyleWeight := 0.20
  const ValuesWeight := 0.15
  const AestheticWeight := 0.10

  lemma WeightsSumToOne()
    ensures FetishWeight + PersonalityWeight + LifestyleWeight + ValuesWeight + AestheticWeight == 1.0
  {
  }

  /** The weighted sum: a convex combination, so it lies between the least
      and the greatest sub-score. */
  function Overall(s: SubScores): (r: real)
    ensures s.InRange() ==> 0.0 <= r <= 100.0
    ensures (s.fetishOverlap == s.personalityCompat == s.lifestyleAlignment == s.valuesAlignment
             == s.aestheticHarmony) ==> r == s.fetishOverlap
  {
    s.fetishOverlap * FetishWeight + s.personalityCompat * PersonalityWeight
      + s.lifestyleAlignment * LifestyleWeight + s.valuesAlignment * ValuesWeight
      + s.aestheticHarmony * AestheticWeight
  }

  /** Raising any one sub-score never lowers the overall score. */
  lemma OverallMonotone(s: SubScores, t: SubScores)
    requires s.fetishOverlap <= t.fetishOverlap && s.personalityCompat <= t.personalityCompat
    requires s.lifestyleAlignment <= t.lifestyleAlignment && s.valuesAlignment <= t.valuesAlignment
    requires s.aestheticHarmony <= t.aestheticHarmony
    ensures Overall(s) <= Overall(t)
  {
  }

  /** `Math.round(overall * 100) / 100`: within half a hundredth of the
      overall score. */
  function RoundedOverall(x: real): (r: real)
    ensures x - 0.005 < r <= x + 0.005
    ensures 0.0 <= x <= 100.0 ==> 0.0 <= r <= 100.0
  {
    if 0.0 <= x <= 100.0 then RoundBounds(x * 100.0, 0, 10000); Round(x * 100.0) as real / 100.0
    else Round(x * 100.0) as real / 100.0
  }

  datatype Level = Poor | Okay | Good | Excellent | Perfect

  function Rank(l: Level): nat {
    match l
    case Poor => 0
    case Okay => 1
    case Good => 2
    case Excellent => 3
    case Perfect => 4
  }

  /** The ladder on the unrounded overall score. */
  function LevelOf(overall: real): (l: Level)
    ensures l == Perfect <==> overall >= 85.0
    ensures l == Poor <==> overall < 40.0
  {
    if overall >= 85.0 then Perfect
    else if overall >= 70.0 then Excellent
    else if overall >= 55.0 then Good
    else if overall >= 40.0 then Okay
    else Poor
  }

  /** A higher score never earns a lower level. */
  lemma LevelMonotone(x: real, y: real)
    requires x <= y
    ensures Rank(LevelOf(x)) <= Rank(LevelOf(y))
  {
  }

  /** Each level starts at its threshold: the least score with that level. */
  lemma LevelThresholds(x: real)
    ensures LevelOf(x) == Excellent <==> 70.0 <= x < 85.0
    ensures LevelOf(x) == Good <==> 55.0 <= x < 70.0
    ensures LevelOf(x) == Okay <==> 40.0 <= x < 55.0
  {
  }

  function Recommendation(l: Level): string {
    match l
    case Perfect => "\U{1F4AF} Soulmate-Level! Ihr beide solltet sofort matchen!"
    case Excellent => "\U{2B50} Hervorragende Übereinstimmung! Das könnte richtig gut werden."
    case Good => "\U{1F44D} Gute Basis! Mit offener Kommunikation klappt das."
    case Okay => "\U{1F914} Okay-ish. Einige Überschneidungen, aber auch Unterschiede."
    case Poor => "\U{274C} Wenig Übereinstimmung. Besser andere Profile suchen."
  }

  datatype BreakdownItem = BreakdownItem(name: string, score: real, weight: nat)

  datatype MatchResult = MatchResult(
    matchId: string,
    user1Id: string,
    user2Id: string,
    scores: SubScores,
    overall: real,
    breakdown: seq<BreakdownItem>,
    level: Level,
    recommendation: string)

  function SubScoresOf(c1: Character, c2: Character): (s: SubScores)
    ensures s.InRange()
  {
    SubScores(
      FetishOverlap(c1.tags, c2.tags),
      PersonalityCompat(c1.big5, c2.big5),
      LifestyleAlignment(c1.lifestyle, c2.lifestyle),
      ValuesAlignment(c1.lifestyle, c2.lifestyle),
      AestheticHarmony(c1.lifestyle, c2.lifestyle))
  }

  /** `calculate`: the five sub-scores, the overall score rounded to two
      decimals, the breakdown with weights in percent, and the level and
      recommendation from the unrounded overall score. `now` is the
      `Date.now()` reading in the match id. */
  function Calculate(c1: Character, c2: Character, now: string): (m: MatchResult)
    ensures m.scores == SubScoresOf(c1, c2)
    ensures 0.0 <= Overall(m.scores) <= 100.0
    ensures m.overall == RoundedOverall(Overall(m.scores))
    ensures 0.0 <= m.overall <= 100.0
    ensures m.level == LevelOf(Overall(m.scores))
    ensures m.recommendation == Recommendation(m.level)
    ensures |m.breakdown| == 5
    ensures m.breakdown[0].weight + m.breakdown[1].weight + m.breakdown[2].weight
            + m.breakdown[3].weight + m.breakdown[4].weight == 100
  {
    var s := SubScoresOf(c1, c2);
    var overall := Overall(s);
    var level := LevelOf(overall);
    MatchResult(
      "match_" + now + "_" + Prefix(c1.userId, 4) + "_" + Prefix(c2.userId, 4),
      c1.userId,
      c2.userId,
      s,
      RoundedOverall(overall),
      [BreakdownItem("Fetish Overlap", s.fetishOverlap, 40),
       BreakdownItem("Personality", s.personalityCompat, 15),
       BreakdownItem("Lifestyle", s.lifestyleAlignment, 20),
       BreakdownItem("Values", s.valuesAlignment, 15),
       BreakdownItem("Aesthetic", s.aestheticHarmony, 10)],
      level,
      Recommendation(level))
  }

  /** The breakdown reports each sub-score with its weight in percent. */
  lemma BreakdownMatchesWeights(c1: Character, c2: Character, now: string)
    ensures var m := Calculate(c1, c2, now);
      && m.breakdown[0].score == m.scores.fetishOverlap && m.breakdown[0].weight as real == FetishWeight * 100.0
      && m.breakdown[1].score == m.scores.personalityCompat && m.breakdown[1].weight as real == PersonalityWeight * 100.0
      && m.breakdown[2].score == m.scores.lifestyleAlignment && m.breakdown[2].weight as real == LifestyleWeight * 100.0
      && m.breakdown[3].score == m.scores.valuesAlignment && m.breakdown[3].weight as real == ValuesWeight * 100.0
      && m.breakdown[4].score == m.scores.aestheticHarmony && m.breakdown[4].weight as real == AestheticWeight * 100.0
  {
  }
}
