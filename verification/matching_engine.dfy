/** The compatibility score of src/services/matchingEngine.ts, the variant the
    Express server calls: category-level tag matches, weighted trait
    differences, fixed per-field points over fixed denominators, and two
    lookup tables. The five sub-scores are combined with the same weights as
    in matching/matching.ts and every reported field is rounded on its own.

    Two of the fixed denominators are smaller than the points their fields
    can award, so lifestyle alignment can reach 60/55 * 100 and values
    alignment 120. `LifestyleAsWritten` and `ValuesAsWritten` keep the
    source's denominators and exhibit the overshoot; `LifestyleAlignment` and
    `ValuesAlignment` divide by the attainable maximum instead.
    `CalculateMatchAsWritten` combines the source's sub-scores, so its
    overall reaches 105; `CalculateMatch` combines the corrected ones. */
module MatchingEngine {
  import opened Common
  import opened Profiles
  import Matching

  // ---------------------------------------------------------------------------
  // Fetish overlap
  // ---------------------------------------------------------------------------

  /** The first two dotted segments of a tag id. */
  function Category(id: string): string {
    FirstTwoSegments(id, '.')
  }

  /** The ids in `ys` other than `x` that share its category. */
  function SameCategory(x: string, ys: seq<string>): (n: nat)
    ensures n <= |ys|
  {
    if ys == [] then 0
    else (if Category(x) == Category(ys[0]) && x != ys[0] then 1 else 0) + SameCategory(x, ys[1..])
  }

  /** `categoryMatches`: ordered pairs of distinct ids with equal categories. */
  function CategoryPairs(xs: seq<string>, ys: seq<string>): (n: nat)
    ensures n <= |xs| * |ys|
  {
    if xs == [] then 0
    else
      var n := SameCategory(xs[0], ys) + CategoryPairs(xs[1..], ys);
      assert |xs| * |ys| == |ys| + |xs[1..]| * |ys|;
      n
  }

  /** The number of `y` in `ys` equal to `x`. */
  function Occurrences(x: string, ys: seq<string>): (n: nat)
    ensures n <= |ys|
  {
    if ys == [] then 0 else (if x == ys[0] then 1 else 0) + Occurrences(x, ys[1..])
  }

  /** `mustHaveMatches`: ordered pairs of equal must-have ids. */
  function EqualPairs(xs: seq<string>, ys: seq<string>): (n: nat)
    ensures n <= |xs| * |ys|
  {
    if xs == [] then 0
    else
      var n := Occurrences(xs[0], ys) + EqualPairs(xs[1..], ys);
      assert |xs| * |ys| == |ys| + |xs[1..]| * |ys|;
      n
  }

  /** `part / whole * weight` for a non-negative part and a positive whole. */
  function Share(part: nat, whole: nat, weight: real): (r: real)
    requires whole > 0 && weight >= 0.0
    ensures 0.0 <= r
    ensures part <= whole ==> r <= weight
  {
    var q := part as real / whole as real;
    ScaleBounds(q, weight);
    if part <= whole then FractionInUnit(part as real, whole as real); q * weight
    else q * weight
  }

  lemma ScaleBounds(q: real, w: real)
    requires q >= 0.0 && w >= 0.0
    ensures q * w >= 0.0
    ensures q <= 1.0 ==> q * w <= w
  {
  }

  /** The must-have term: 0 unless both sides have must-haves, otherwise the
      equal must-have pairs over the shorter must-have list, times 15. */
  function MustTerm(a: seq<TagSelection>, b: seq<TagSelection>): (r: real)
    ensures r >= 0.0
    ensures |TagIdsOfType(a, Must)| == 0 || |TagIdsOfType(b, Must)| == 0 ==> r == 0.0
  {
    var mustA, mustB := TagIdsOfType(a, Must), TagIdsOfType(b, Must);
    if |mustA| > 0 && |mustB| > 0 then Share(EqualPairs(mustA, mustB), MinNat(|mustA|, |mustB|), 15.0)
    else 0.0
  }

  /** The exact and the category terms, over the larger set of distinct ids. */
  function ExactTerm(a: seq<TagSelection>, b: seq<TagSelection>): (r: real)
    requires |a| > 0
    ensures 0.0 <= r <= 60.0
  {
    var idsA, idsB := Dedup(TagIds(a)), Dedup(TagIds(b));
    Matching.DistinctIdsNonEmpty(a);
    Share(CountIn(idsA, idsB), MaxNat(|idsA|, |idsB|), 60.0)
  }

  function CategoryTerm(a: seq<TagSelection>, b: seq<TagSelection>): (r: real)
    requires |a| > 0
    ensures r >= 0.0
  {
    var idsA, idsB := Dedup(TagIds(a)), Dedup(TagIds(b));
    Matching.DistinctIdsNonEmpty(a);
    Share(CategoryPairs(idsA, idsB), MaxNat(|idsA|, |idsB|), 25.0)
  }

  /** `calculateFetishOverlap`: 0 when either list is empty, otherwise the
      three terms capped at 100. */
  function FetishOverlap(a: seq<TagSelection>, b: seq<TagSelection>): (r: real)
    ensures 0.0 <= r <= 100.0
    ensures a == [] || b == [] ==> r == 0.0
  {
    if |a| == 0 || |b| == 0 then 0.0
    else MinReal(100.0, ExactTerm(a, b) + CategoryTerm(a, b) + MustTerm(a, b))
  }

  const CatA := TagSelection("c.d.a", Nice, 3, "")
  const CatB := TagSelection("c.d.b", Nice, 3, "")
  const CatC := TagSelection("c.d.c", Nice, 3, "")
  const CatE := TagSelection("c.d.e", Nice, 3, "")

  /** An id of three one-letter segments has the first two as its category. */
  lemma CategoryOfThree(x: char, y: char, z: char)
    requires x != '.' && y != '.' && z != '.'
    ensures Category([x, '.', y, '.', z]) == [x, '.', y]
  {
    var empty: string := [];
    assert Split(empty, '.') == [empty];
    assert Split([z], '.') == [[z]] by { assert [z][1..] == empty; assert [z] + empty == [z]; }
    assert Split(['.', z], '.') == [empty, [z]] by { assert ['.', z][1..] == [z]; }
    assert Split([y, '.', z], '.') == [[y], [z]] by {
      assert [y, '.', z][1..] == ['.', z];
      assert [y] + empty == [y];
    }
    assert Split(['.', y, '.', z], '.') == [empty, [y], [z]] by { assert ['.', y, '.', z][1..] == [y, '.', z]; }
    assert Split([x, '.', y, '.', z], '.') == [[x], [y], [z]] by {
      assert [x, '.', y, '.', z][1..] == ['.', y, '.', z];
      assert [x] + empty == [x];
    }
    var parts := [[x], [y], [z]];
    assert parts[..2] == [[x], [y]];
    assert Join([[x], [y]], '.') == [x, '.', y] by {
      assert [[x], [y]][1..] == [[y]];
      assert Join([[y]], '.') == [y];
    }
  }

  /** Category pairs are counted over all pairs, not capped by the number of
      ids: two ids against two other ids of one category give four pairs, a
      category term of 50 against its nominal 25. */
  lemma DedupOfTwo(x: string, y: string)
    requires x != y
    ensures Dedup([x, y]) == [x, y]
  {
    assert [x, y][..1] == [x];
    assert [x][..0] == [];
  }

  lemma ExamplePairs()
    ensures CategoryPairs(["c.d.a", "c.d.b"], ["c.d.c", "c.d.e"]) == 4
  {
    CategoryOfThree('c', 'd', 'a');
    CategoryOfThree('c', 'd', 'b');
    CategoryOfThree('c', 'd', 'c');
    CategoryOfThree('c', 'd', 'e');
    var xs, ys := ["c.d.a", "c.d.b"], ["c.d.c", "c.d.e"];
    assert SameCategory(xs[0], ys) == 2 by { assert ys[1..][1..] == []; }
    assert SameCategory(xs[1], ys) == 2 by { assert ys[1..][1..] == []; }
    assert xs[1..][1..] == [];
  }

  lemma CategoryTermExceedsWeight()
    ensures CategoryTerm([CatA, CatB], [CatC, CatE]) == 50.0
  {
    var xs, ys := ["c.d.a", "c.d.b"], ["c.d.c", "c.d.e"];
    assert TagIds([CatA, CatB]) == xs;
    assert TagIds([CatC, CatE]) == ys;
    DedupOfTwo(xs[0], xs[1]);
    DedupOfTwo(ys[0], ys[1]);
    ExamplePairs();
    assert Share(4, 2, 25.0) == 50.0;
  }

  // ---------------------------------------------------------------------------
  // Personality
  // ---------------------------------------------------------------------------

  /** The weighted difference: conscientiousness and openness count 1.2,
      the other three traits 0.8. */
  function WeightedGap(p: Big5, q: Big5): (g: real)
    ensures g >= 0.0
    ensures g == 0.0 <==> p == q
  {
    1.2 * (Abs(p.conscientiousness - q.conscientiousness) + Abs(p.openness - q.openness)) as real
      + 0.8 * (Abs(p.extraversion - q.extraversion) + Abs(p.agreeableness - q.agreeableness)
               + Abs(p.neuroticism - q.neuroticism)) as real
  }

  /** `calculatePersonalityCompat`: `100 - 1.5 * average`, floored at 0; 100
      exactly for equal traits. */
  function PersonalityCompat(p: Big5, q: Big5): (r: real)
    ensures 0.0 <= r <= 100.0
    ensures r == 100.0 <==> p == q
  {
    MaxReal(0.0, 100.0 - WeightedGap(p, q) / 5.0 * 1.5)
  }

  lemma PersonalitySymmetric(p: Big5, q: Big5)
    ensures PersonalityCompat(p, q) == PersonalityCompat(q, p)
  {
  }

  /** A gap in conscientiousness costs more than the same gap in
      extraversion. */
  lemma SimilarityWeighsMore(p: Big5, d: nat)
    requires d > 0
    ensures WeightedGap(p, p.(conscientiousness := p.conscientiousness + d))
            > WeightedGap(p, p.(extraversion := p.extraversion + d))
  {
  }

  // ---------------------------------------------------------------------------
  // Lookup tables
  // ---------------------------------------------------------------------------

  /** The political distance table; symmetric by construction of its rows. */
  function PoliticsTable(a: string, b: string): Option<real> {
    if a == "links" then
      (if b == "liberal" then Some(0.3) else if b == "zentrist" then Some(0.6)
       else if b == "konservativ" then Some(1.0) else None)
    else if a == "liberal" then
      (if b == "links" then Some(0.3) else if b == "zentrist" then Some(0.4)
       else if b == "konservativ" then Some(0.9) else None)
    else if a == "zentrist" then
      (if b == "links" then Some(0.6) else if b == "liberal" then Some(0.4)
       else if b == "konservativ" then Some(0.6) else None)
    else if a == "konservativ" then
      (if b == "liberal" then Some(0.9) else if b == "links" then Some(1.0)
       else if b == "zentrist" then Some(0.6) else None)
    else None
  }

  /** `semanticDistance`: 0 for equal answers, 0.5 when one is empty or the
      pair is not in the table. */
  function SemanticDistance(a: string, b: string): (r: real)
    ensures 0.0 <= r <= 1.0
    ensures r == 0.0 <==> a == b
    ensures a != b && (a == "" || b == "") ==> r == 0.5
    ensures a != b && PoliticsTable(a, b).None? ==> r == 0.5
    ensures a != b && PoliticsTable(a, b).Some? ==> r == PoliticsTable(a, b).value
  {
    if a == b then 0.0
    else if a == "" || b == "" then 0.5
    else match PoliticsTable(a, b)
      case Some(d) => d
      case None => 0.5
  }

  lemma SemanticDistanceSymmetric(a: string, b: string)
    ensures SemanticDistance(a, b) == SemanticDistance(b, a)
  {
  }

  /** The style compatibility table; rows list only some styles, and the
      missing entries default to 0.4. */
  function StyleTable(a: string, b: string): Option<real> {
    if a == "goth" then
      (if b == "goth" then Some(1.0) else if b == "grunge" then Some(0.8)
       else if b == "alternative" then Some(0.7) else if b == "punk" then Some(0.6) else None)
    else if a == "grunge" then
      (if b == "goth" then Some(0.8) else if b == "grunge" then Some(1.0)
       else if b == "alternative" then Some(0.9) else if b == "punk" then Some(0.5) else None)
    else if a == "minimal" then
      (if b == "minimal" then Some(1.0) else if b == "preppy" then Some(0.4)
       else if b == "casual" then Some(0.6) else None)
    else if a == "boho" then
      (if b == "boho" then Some(1.0) else if b == "hippie" then Some(0.9)
       else if b == "minimal" then Some(0.3) else None)
    else None
  }

  /** `aestheticCompatibility`: a factor in [0, 1], 0.4 off the table. */
  function StyleCompatibility(a: string, b: string): (r: real)
    ensures 0.0 <= r <= 1.0
    ensures StyleTable(a, b).None? ==> r == 0.4
  {
    match StyleTable(a, b)
    case Some(f) => f
    case None => 0.4
  }

  /** The style table is not symmetric: goth rates alternative 0.7, but
      alternative has no row and rates goth 0.4. */
  lemma StyleCompatibilityAsymmetric()
    ensures StyleCompatibility("goth", "alternative") == 0.7
    ensures StyleCompatibility("alternative", "goth") == 0.4
  {
  }

  // ---------------------------------------------------------------------------
  // Lifestyle
  // ---------------------------------------------------------------------------

  /** Housing: 15 when equal (two missing answers are equal), 8 for alone
      against partner, 0 otherwise. */
  function HousingPoints(l: Lifestyle, m: Lifestyle): (r: real)
    ensures 0.0 <= r <= 15.0
  {
    if l.housing == m.housing then 15.0
    else if (l.housing == Some("alone") && m.housing == Some("partner"))
         || (l.housing == Some("partner") && m.housing == Some("alone")) then 8.0
    else 0.0
  }

  /** Career: when both answered, 10 for equal careers (3 otherwise) plus 5
      unless either is a student. */
  function CareerPoints(l: Lifestyle, m: Lifestyle): (r: real)
    ensures 0.0 <= r <= 15.0
  {
    if Truthy(l.career) && Truthy(m.career) then
      (if l.career == m.career then 10.0 else 3.0)
        + (if l.career == Some("student") || m.career == Some("student") then 0.0 else 5.0)
    else 0.0
  }

  /** Daily rhythm: 12 when equal, 0 for morning against evening, 6 otherwise. */
  function RhythmPoints(l: Lifestyle, m: Lifestyle): (r: real)
    ensures 0.0 <= r <= 12.0
  {
    if l.dailyRhythm == m.dailyRhythm then 12.0
    else if (l.dailyRhythm == Some("morning") && m.dailyRhythm == Some("evening"))
         || (l.dailyRhythm == Some("evening") && m.dailyRhythm == Some("morning")) then 0.0
    else 6.0
  }

  /** `points` when both gave the same non-empty answer. */
  function SamePoints(x: Option<string>, y: Option<string>, points: real): (r: real)
    requires points >= 0.0
    ensures 0.0 <= r <= points
    ensures r == points <==> (x == y && Truthy(x)) || points == 0.0
  {
    if x == y && Truthy(x) then points else 0.0
  }

  /** All lifestyle points: at most 60. */
  function LifestylePoints(l: Lifestyle, m: Lifestyle): (r: real)
    ensures 0.0 <= r <= 60.0
  {
    HousingPoints(l, m) + CareerPoints(l, m) + RhythmPoints(l, m)
      + SamePoints(l.availability, m.availability, 8.0) + SamePoints(l.diet, m.diet, 5.0)
      + SamePoints(l.fitness, m.fitness, 5.0)
  }

  /** `calculateLifestyleAlignment` as written: the points over a fixed 55,
      so the score can reach 60/55 * 100. */
  function LifestyleAsWritten(l: Lifestyle, m: Lifestyle): (r: real)
    ensures 0.0 <= r <= 60.0 / 55.0 * 100.0
  {
    LifestylePoints(l, m) / 55.0 * 100.0
  }

  /** Two empty questionnaires already earn the housing and rhythm points:
      27/55 * 100. */
  lemma EmptyLifestylesScore()
    ensures LifestyleAsWritten(NoLifestyle, NoLifestyle) == 27.0 / 55.0 * 100.0
  {
  }

  /** An answer set that agrees everywhere, with a non-student career. */
  const Agreeable := NoLifestyle.(housing := Some("alone"), career := Some("business"),
    dailyRhythm := Some("morning"), availability := Some("weekends"), diet := Some("vegan"),
    fitness := Some("active"), politics := Some("links"), spirituality := Some("atheist"),
    wantChildren := Some("no"), environment := Some("high"), relationshipStructure := Some("mono"))

  /** Against itself that answer set earns all 60 points, so the as-written
      score is 60/55 * 100, above 100. */
  lemma LifestyleExceedsHundred()
    ensures LifestyleAsWritten(Agreeable, Agreeable) == 60.0 / 55.0 * 100.0
    ensures LifestyleAsWritten(Agreeable, Agreeable) > 100.0
  {
  }

  /** The points over the attainable 60: in [0, 100], and 100 exactly when
      every field earns its full points. */
  function LifestyleAlignment(l: Lifestyle, m: Lifestyle): (r: real)
    ensures 0.0 <= r <= 100.0
    ensures r == 100.0 <==> LifestylePoints(l, m) == 60.0
  {
    LifestylePoints(l, m) / 60.0 * 100.0
  }

  /** Both definitions order answer pairs alike: the corrected score is the
      as-written one scaled by 55/60. */
  lemma LifestyleRescaled(l: Lifestyle, m: Lifestyle)
    ensures LifestyleAlignment(l, m) == LifestyleAsWritten(l, m) * 55.0 / 60.0
  {
  }

  // ---------------------------------------------------------------------------
  // Values
  // ---------------------------------------------------------------------------

  /** `(1 - distance) * points` when both answered. */
  function ClosePoints(x: Option<string>, y: Option<string>, points: real): (r: real)
    requires points >= 0.0
    ensures 0.0 <= r <= points
    ensures Truthy(x) && x == y ==> r == points
  {
    if Truthy(x) && Truthy(y) then (1.0 - SemanticDistance(x.value, y.value)) * points else 0.0
  }

  /** Wish for children: when both are defined (an empty answer counts),
      `max(0, (equal ? 30 : -40) + 20)`, i.e. 50 or 0. */
  function ChildrenPoints(l: Lifestyle, m: Lifestyle): (r: real)
    ensures r == 0.0 || r == 50.0
    ensures r == 50.0 <==> l.wantChildren.Some? && l.wantChildren == m.wantChildren
  {
    if l.wantChildren.Some? && m.wantChildren.Some? then
      MaxReal(0.0, (if l.wantChildren == m.wantChildren then 30.0 else -40.0) + 20.0)
    else 0.0
  }

  /** Relationship structure: 25 when equal, 7.5 otherwise, when both
      answered. */
  function StructurePoints(l: Lifestyle, m: Lifestyle): (r: real)
    ensures 0.0 <= r <= 25.0
  {
    if Truthy(l.relationshipStructure) && Truthy(m.relationshipStructure) then
      (if l.relationshipStructure == m.relationshipStructure then 1.0 else 0.3) * 25.0
    else 0.0
  }

  /** All values points: at most 120. */
  function ValuesPoints(l: Lifestyle, m: Lifestyle): (r: real)
    ensures 0.0 <= r <= 120.0
  {
    ClosePoints(l.politics, m.politics, 20.0) + ClosePoints(l.spirituality, m.spirituality, 15.0)
      + ChildrenPoints(l, m) + ClosePoints(l.environment, m.environment, 10.0)
      + StructurePoints(l, m)
  }

  /** `calculateValuesAlignment` as written: the points over a fixed 100, so
      the score can reach 120. */
  function ValuesAsWritten(l: Lifestyle, m: Lifestyle): (r: real)
    ensures 0.0 <= r <= 120.0
  {
    ValuesPoints(l, m) / 100.0 * 100.0
  }

  /** Against itself the agreeable answer set earns all 120 points. */
  lemma ValuesExceedHundred()
    ensures ValuesAsWritten(Agreeable, Agreeable) == 120.0
  {
  }

  /** The points over the attainable 120: in [0, 100], and 100 exactly when
      every field earns its full points. */
  function ValuesAlignment(l: Lifestyle, m: Lifestyle): (r: real)
    ensures 0.0 <= r <= 100.0
    ensures r == 100.0 <==> ValuesPoints(l, m) == 120.0
  {
    ValuesPoints(l, m) / 120.0 * 100.0
  }

  lemma ValuesRescaled(l: Lifestyle, m: Lifestyle)
    ensures ValuesAlignment(l, m) == ValuesAsWritten(l, m) * 100.0 / 120.0
  {
  }

  // ---------------------------------------------------------------------------
  // Aesthetic
  // ---------------------------------------------------------------------------

  /** Fashion or hair: full points when equal, the table factor otherwise,
      when both answered. */
  function StylePoints(x: Option<string>, y: Option<string>, points: real): (r: real)
    requires points >= 0.0
    ensures 0.0 <= r <= points
  {
    if Truthy(x) && Truthy(y) then
      (if x == y then points else StyleCompatibility(x.value, y.value) * points)
    else 0.0
  }

  /** Body modifications: the entries of the first list that the second has
      (duplicates counted), over the longer list, times 12; only when both
      lists are non-empty. */
  function ModsPoints(l: Lifestyle, m: Lifestyle): (r: real)
    ensures 0.0 <= r <= 12.0
  {
    match (l.bodyModifications, m.bodyModifications)
    case (Some(x), Some(y)) =>
      if |x| > 0 && |y| > 0 then Share(CountIn(x, y), MaxNat(|x|, |y|), 12.0) else 0.0
    case _ => 0.0
  }

  /** `calculateAestheticHarmony`: the points over 35, which is exactly the
      most they can reach. */
  function AestheticHarmony(l: Lifestyle, m: Lifestyle): (r: real)
    ensures 0.0 <= r <= 100.0
  {
    (StylePoints(l.fashionStyle, m.fashionStyle, 15.0) + ModsPoints(l, m)
       + StylePoints(l.hairStyle, m.hairStyle, 8.0)) / 35.0 * 100.0
  }

  // ---------------------------------------------------------------------------
  // calculateMatch
  // ---------------------------------------------------------------------------

  datatype WeightedItem = WeightedItem(name: string, score: real, weight: real)

  /** The reported scores: every field rounded on its own. */
  datatype Report = Report(
    overall: int,
    fetishOverlap: int,
    personalityCompat: int,
    lifestyleAlignment: int,
    valuesAlignment: int,
    aestheticHarmony: int,
    breakdown: seq<WeightedItem>)

  /** The unrounded sub-scores as the source computes them: the lifestyle
      score over 55 and the values score over 100, so those two can leave
      [0, 100]. They are the corrected sub-scores with those two rescaled. */
  function SubScoresAsWritten(c1: Character, c2: Character): (s: Matching.SubScores)
    ensures 0.0 <= s.fetishOverlap <= 100.0 && 0.0 <= s.personalityCompat <= 100.0
    ensures 0.0 <= s.lifestyleAlignment <= 60.0 / 55.0 * 100.0
    ensures 0.0 <= s.valuesAlignment <= 120.0
    ensures 0.0 <= s.aestheticHarmony <= 100.0
    ensures var t := SubScoresOf(c1, c2);
      && s.fetishOverlap == t.fetishOverlap && s.personalityCompat == t.personalityCompat
      && s.aestheticHarmony == t.aestheticHarmony
      && s.lifestyleAlignment == t.lifestyleAlignment * 60.0 / 55.0
      && s.valuesAlignment == t.valuesAlignment * 120.0 / 100.0
  {
    LifestyleRescaled(c1.lifestyle, c2.lifestyle);
    ValuesRescaled(c1.lifestyle, c2.lifestyle);
    Matching.SubScores(
      FetishOverlap(c1.tags, c2.tags),
      PersonalityCompat(c1.big5, c2.big5),
      LifestyleAsWritten(c1.lifestyle, c2.lifestyle),
      ValuesAsWritten(c1.lifestyle, c2.lifestyle),
      AestheticHarmony(c1.lifestyle, c2.lifestyle))
  }

  /** The unrounded sub-scores with the corrected lifestyle and values
      scores: all five in [0, 100]. */
  function SubScoresOf(c1: Character, c2: Character): (s: Matching.SubScores)
    ensures s.InRange()
  {
    Matching.SubScores(
      FetishOverlap(c1.tags, c2.tags),
      PersonalityCompat(c1.big5, c2.big5),
      LifestyleAlignment(c1.lifestyle, c2.lifestyle),
      ValuesAlignment(c1.lifestyle, c2.lifestyle),
      AestheticHarmony(c1.lifestyle, c2.lifestyle))
  }

  /** Every reported field is within one half of the unrounded score it
      reports, and in [0, 100] when that score is. */
  predicate ReportsRounded(x: real, n: int) {
    && x - 0.5 < n as real <= x + 0.5
    && (0.0 <= x <= 100.0 ==> 0 <= n <= 100)
  }

  /** Rounding: the overall score is the weighted sum of the unrounded
      sub-scores, rounded; each field is rounded separately; the breakdown
      carries the unrounded sub-scores with weights summing to 1. */
  function ReportOf(s: Matching.SubScores): (r: Report)
    ensures r.overall == Round(Matching.Overall(s))
    ensures s.InRange() ==> 0 <= r.overall <= 100
    ensures ReportsRounded(s.fetishOverlap, r.fetishOverlap)
    ensures ReportsRounded(s.personalityCompat, r.personalityCompat)
    ensures ReportsRounded(s.lifestyleAlignment, r.lifestyleAlignment)
    ensures ReportsRounded(s.valuesAlignment, r.valuesAlignment)
    ensures ReportsRounded(s.aestheticHarmony, r.aestheticHarmony)
    ensures |r.breakdown| == 5
    ensures r.breakdown[2].score == s.lifestyleAlignment && r.breakdown[3].score == s.valuesAlignment
    ensures r.breakdown[0].weight + r.breakdown[1].weight + r.breakdown[2].weight
            + r.breakdown[3].weight + r.breakdown[4].weight == 1.0
  {
    Report(
      Round(Matching.Overall(s)),
      Round(s.fetishOverlap),
      Round(s.personalityCompat),
      Round(s.lifestyleAlignment),
      Round(s.valuesAlignment),
      Round(s.aestheticHarmony),
      [WeightedItem("Fetisch-Overlap", s.fetishOverlap, Matching.FetishWeight),
       WeightedItem("Persönlichkeit", s.personalityCompat, Matching.PersonalityWeight),
       WeightedItem("Lebensstil", s.lifestyleAlignment, Matching.LifestyleWeight),
       WeightedItem("Werte", s.valuesAlignment, Matching.ValuesWeight),
       WeightedItem("Ästhetik", s.aestheticHarmony, Matching.AestheticWeight)])
  }

  /** `calculateMatch` as written. Its lifestyle field reaches 109, its values
      field 120 and its overall 105, against the 0-100 the result type
      documents. */
  function CalculateMatchAsWritten(c1: Character, c2: Character): (r: Report)
    ensures r == ReportOf(SubScoresAsWritten(c1, c2))
    ensures 0 <= r.overall <= 105
    ensures 0 <= r.lifestyleAlignment <= 109
    ensures 0 <= r.valuesAlignment <= 120
    ensures 0 <= r.fetishOverlap <= 100 && 0 <= r.personalityCompat <= 100
    ensures 0 <= r.aestheticHarmony <= 100
  {
    var s := SubScoresAsWritten(c1, c2);
    OverallAsWrittenBounds(s);
    ReportOf(s)
  }

  lemma OverallAsWrittenBounds(s: Matching.SubScores)
    requires 0.0 <= s.fetishOverlap <= 100.0 && 0.0 <= s.personalityCompat <= 100.0
    requires 0.0 <= s.lifestyleAlignment <= 60.0 / 55.0 * 100.0
    requires 0.0 <= s.valuesAlignment <= 120.0
    requires 0.0 <= s.aestheticHarmony <= 100.0
    ensures 0 <= Round(Matching.Overall(s)) <= 105
    ensures 0 <= Round(s.lifestyleAlignment) <= 109
  {
    RoundBounds(Matching.Overall(s), 0, 105);
    assert Round(s.lifestyleAlignment) as real <= 60.0 / 55.0 * 100.0 + 0.5 < 110.0;
  }

  /** `calculateMatch` with the corrected lifestyle and values scores: every
      field, the overall included, in [0, 100]. */
  function CalculateMatch(c1: Character, c2: Character): (r: Report)
    ensures r == ReportOf(SubScoresOf(c1, c2))
    ensures 0 <= r.overall <= 100
    ensures && 0 <= r.fetishOverlap <= 100 && 0 <= r.personalityCompat <= 100
            && 0 <= r.lifestyleAlignment <= 100 && 0 <= r.valuesAlignment <= 100
            && 0 <= r.aestheticHarmony <= 100
  {
    ReportOf(SubScoresOf(c1, c2))
  }

  /** Two must-have tags of one category. */
  const MustA := CatA.(tagType := Must)
  const MustB := CatB.(tagType := Must)

  /** The agreeable answers with the aesthetic fields answered as well. */
  const AllAnswered := Agreeable.(fashionStyle := Some("goth"), hairStyle := Some("long"),
    bodyModifications := Some(["tattoo"]))

  const TwoMustIds: seq<string> := ["c.d.a", "c.d.b"]

  lemma TwoMustIdsOf()
    ensures TagIds([MustA, MustB]) == TwoMustIds
    ensures TagIdsOfType([MustA, MustB], Must) == TwoMustIds
    ensures Dedup(TwoMustIds) == TwoMustIds
  {
    DedupOfTwo(TwoMustIds[0], TwoMustIds[1]);
  }

  /** Each of the two ids shares its category with the other one only. */
  lemma TwoMustCategoryPairs()
    ensures CategoryPairs(TwoMustIds, TwoMustIds) == 2
  {
    var xs := TwoMustIds;
    CategoryOfThree('c', 'd', 'a');
    CategoryOfThree('c', 'd', 'b');
    assert xs[1..][1..] == [];
    assert SameCategory(xs[0], xs) == 1;
    assert SameCategory(xs[1], xs) == 1;
  }

  lemma TwoMustEqualPairs()
    ensures EqualPairs(TwoMustIds, TwoMustIds) == 2
    ensures CountIn(TwoMustIds, TwoMustIds) == 2
  {
    var xs := TwoMustIds;
    assert xs[1..][1..] == [];
    assert Occurrences(xs[0], xs) == 1;
    assert Occurrences(xs[1], xs) == 1;
  }

  /** Against itself the pair of must-haves earns 60 + 25 + 15. */
  lemma TwoMustsOverlapFully()
    ensures FetishOverlap([MustA, MustB], [MustA, MustB]) == 100.0
  {
    var tags := [MustA, MustB];
    TwoMustIdsOf();
    TwoMustCategoryPairs();
    TwoMustEqualPairs();
    assert ExactTerm(tags, tags) == 60.0 by { assert Share(2, 2, 60.0) == 60.0; }
    assert CategoryTerm(tags, tags) == 25.0 by { assert Share(2, 2, 25.0) == 25.0; }
    assert MustTerm(tags, tags) == 15.0 by { assert Share(2, 2, 15.0) == 15.0; }
  }

  /** Every aesthetic answer agrees with itself. */
  lemma AllAnsweredAesthetics()
    ensures AestheticHarmony(AllAnswered, AllAnswered) == 100.0
  {
    assert CountIn(["tattoo"], ["tattoo"]) == 1;
    assert Share(1, 1, 12.0) == 12.0;
  }

  /** Two identical characters with two must-haves of one category and every
      field answered: the source reports lifestyle 109, values 120 and
      overall 105, where the corrected report gives 100 throughout. */
  lemma OverallExceedsHundred(c: Character)
    requires c.tags == [MustA, MustB] && c.lifestyle == AllAnswered
    ensures var r := CalculateMatchAsWritten(c, c);
      r.overall == 105 && r.lifestyleAlignment == 109 && r.valuesAlignment == 120
    ensures CalculateMatch(c, c).overall == 100
  {
    TwoMustsOverlapFully();
    AllAnsweredAesthetics();
    assert LifestyleAsWritten(AllAnswered, AllAnswered) == 60.0 / 55.0 * 100.0;
    assert ValuesAsWritten(AllAnswered, AllAnswered) == 120.0;
    var s := SubScoresAsWritten(c, c);
    assert s == Matching.SubScores(100.0, 100.0, 60.0 / 55.0 * 100.0, 120.0, 100.0);
    assert Matching.Overall(s) == 83.0 + 1200.0 / 55.0;
    var t := SubScoresOf(c, c);
    assert t == Matching.SubScores(100.0, 100.0, 100.0, 100.0, 100.0);
  }

  /** The rounded overall score need not be the weighted sum of the rounded
      fields: a fetish score of 1.3 alone reports overall 1 but fetish 1,
      whose weighted share is 0.4. */
  lemma RoundingIsPerField()
    ensures var r := ReportOf(Matching.SubScores(1.3, 0.0, 0.0, 0.0, 0.0));
      && r.overall == 1 && r.fetishOverlap == 1
      && Round(r.fetishOverlap as real * Matching.FetishWeight) == 0
  {
  }

  /** The weights sum to 1, so equal sub-scores report that score, rounded. */
  lemma EqualSubScores(x: real)
    requires 0.0 <= x <= 100.0
    ensures ReportOf(Matching.SubScores(x, x, x, x, x)).overall == Round(x)
  {
  }
}
