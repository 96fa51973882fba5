/** `CharacterGenerator8D.generate` of src/services/characterGenerator8D.ts:
    trait inference, `detect`, the slider derivation, the tag summary of last
    id segments, the 65/35 trait labels, the short bio and the `|| 50` slider
    fallback. `Date.now()`, `new Date().toISOString()` and `Math.random()` are
    parameters. */
module Generator8D {
  import opened Common
  import opened Profiles
  import Traits
  import Sliders
  import Archetypes
  import CharacterService

  /** `tags.filter(t => t.tagType === ty).map(t => t.tagId.split('.').pop() || '')`.
      The `|| ''` changes nothing: it only maps the empty segment to itself. */
  function SegmentsOfType(tags: seq<TagSelection>, ty: TagType): (segs: seq<string>)
    ensures |segs| == |TagIdsOfType(tags, ty)|
    ensures forall i | 0 <= i < |segs| :: segs[i] == LastSegment(TagIdsOfType(tags, ty)[i], '.')
  {
    if tags == [] then []
    else (if tags[0].tagType == ty then [LastSegment(tags[0].tagId, '.')] else [])
         + SegmentsOfType(tags[1..], ty)
  }

  /** The tag summary: last segments of the must-have and of the nice-to-have
      ids, which between them account for every tag. */
  function Summary(tags: seq<TagSelection>): (s: TagsSummary)
    ensures s.totalTags == |tags|
    ensures |s.mustHaves| + |s.niceToHaves| == |tags|
    ensures forall seg | seg in s.mustHaves + s.niceToHaves :: '.' !in seg
  {
    MustAndNicePartition(tags);
    TagsSummary(SegmentsOfType(tags, Must), SegmentsOfType(tags, Nice), |tags|)
  }

  /** `seg` is a dot-free tail of `id`, and all of `id` when `id` has no dot. */
  predicate TailSegment(seg: string, id: string) {
    && '.' !in seg
    && |seg| <= |id| && id[|id| - |seg|..] == seg
    && ('.' !in id ==> seg == id)
  }

  /** Each entry is the last dotted segment of a tag id of that type, in
      request order. */
  lemma SegmentsAreSuffixes(tags: seq<TagSelection>, ty: TagType)
    ensures var ids, segs := TagIdsOfType(tags, ty), SegmentsOfType(tags, ty);
      && |segs| == |ids|
      && forall i | 0 <= i < |ids| :: segs[i] == LastSegment(ids[i], '.') && TailSegment(segs[i], ids[i])
  {
    var ids := TagIdsOfType(tags, ty);
    forall i | 0 <= i < |ids| ensures TailSegment(LastSegment(ids[i], '.'), ids[i]) {
      LastSegmentIsSuffix(ids[i], '.');
    }
  }

  /** `x || 50` on a number: every value but 0 is kept. */
  function OrFifty(x: real): (r: real)
    ensures x != 0.0 ==> r == x
    ensures x == 0.0 ==> r == 50.0
  {
    if x != 0.0 then x else 50.0
  }

  /** The fallback never yields 0, so applying it twice changes nothing. */
  lemma OrFiftyIdempotent(x: real)
    ensures OrFifty(x) != 0.0
    ensures OrFifty(OrFifty(x)) == OrFifty(x)
  {
  }

  /** Without an override, the `?? 50` merge of character/character.ts and the
      `|| 50` fallback here report the same slider exactly when the derived
      value is not 0. */
  lemma DefaultsAgreeExceptZero(d: real)
    ensures CharacterService.MergeSlider(None, Some(d)) == OrFifty(d) <==> d != 0.0
  {
  }

  /** The five sliders after `|| 50`: in range, and never 0. */
  function OrFiftyAll(a: Adjustments): (r: Adjustments)
    requires a.InRange()
    ensures r.InRange()
    ensures && r.dominanceLevel != 0.0 && r.intensityLevel != 0.0 && r.emotionalDepth != 0.0
            && r.experience != 0.0 && r.publicness != 0.0
  {
    Adjustments(OrFifty(a.dominanceLevel), OrFifty(a.intensityLevel), OrFifty(a.emotionalDepth),
                OrFifty(a.experience), OrFifty(a.publicness))
  }

  /** The labels at 65 and 35; only extraversion has a middle label. */
  function PersonalityLabels(b: Big5): Personality {
    Personality(
      Label(b.extraversion, 65, 35, "Extrovertiert", "Introvertiert", "Ambivertiert"),
      if b.openness > 65 then "Experimentierfreudig" else "Traditionell",
      if b.conscientiousness > 65 then "Gewissenhaft" else "Spontan",
      if b.agreeableness > 65 then "Empathisch" else "Direkt",
      if b.neuroticism > 65 then "Emotional intensiv" else "Stabil")
  }

  /** `${name} (${tags.length} Fetische, ${extro|intro}vertiert)`. */
  function ShortBio(name: string, tagCount: nat, b: Big5): string {
    name + " (" + Decimal(tagCount) + " Fetische, "
         + (if b.extraversion > 50 then "extro" else "intro") + "vertiert)"
  }

  /** The short bio carries the tag count in decimal, which reads back as the
      count, and says "extro" exactly when extraversion is above 50. */
  lemma ShortBioReportsCount(name: string, tagCount: nat, b: Big5)
    ensures var digits := Decimal(tagCount);
      var word := if b.extraversion > 50 then "extro" else "intro";
      && ShortBio(name, tagCount, b) == name + " (" + digits + " Fetische, " + word + "vertiert)"
      && ParseDecimal(digits) == tagCount
  {
    ParseDecimalInverts(tagCount);
  }

  /** The archetype block: `detect`'s entry, its name and description, and a
      compatibility of `85 + draw * 15`, which lies in [85, 100). */
  function ArchetypeBlock(b: Big5, tags: seq<TagSelection>, draw: real): (a: ArchetypeSummary)
    requires 0.0 <= draw < 1.0
    ensures 85.0 <= a.compatibility < 100.0
    ensures a.keywords == Archetypes.Detect(b, tags).keywords
  {
    var entry := Archetypes.Detect(b, tags);
    ArchetypeSummary(Archetypes.Name(entry.key), Archetypes.Description(entry.key), entry.keywords, 85.0 + draw * 15.0)
  }

  /** The record `generate` assembles, with the prose description left out.
      `now` is the `Date.now()` reading, `timestamp` the ISO time stamp and
      `draw` the `Math.random()` draw in [0, 1). */
  function Generate(userId: string, username: string, tags: seq<TagSelection>, lifestyle: Lifestyle,
                    now: string, timestamp: string, draw: real): (c: Character)
    requires 0.0 <= draw < 1.0
    ensures c.userId == userId && c.username == username
    ensures c.tags == tags && c.lifestyle == lifestyle
    ensures c.big5 == Traits.CalculateFromTags(tags) && c.big5.InRange()
    ensures c.tagsSummary == Summary(tags)
    ensures c.archetype == ArchetypeBlock(c.big5, tags, draw)
    ensures c.generatedProfile.keywords == c.archetype.keywords
    ensures c.generatedProfile.longDescription.None?
    ensures c.adjustments == OrFiftyAll(Sliders.LifestyleToAdjustments(c.big5, lifestyle))
  {
    var big5 := Traits.CalculateFromTags(tags);
    var archetype := ArchetypeBlock(big5, tags, draw);
    Character(
      "char_" + now,
      userId,
      username,
      tags,
      Summary(tags),
      big5,
      PersonalityLabels(big5),
      lifestyle,
      archetype,
      GeneratedProfile(ShortBio(archetype.name, |tags|, big5), None, archetype.keywords),
      OrFiftyAll(Sliders.LifestyleToAdjustments(big5, lifestyle)),
      timestamp,
      timestamp)
  }

  /** Because of `|| 50`, a derived slider of exactly 0 is reported as 50. */
  lemma DerivedZeroBecomesFifty(userId: string, username: string, tags: seq<TagSelection>,
                                lifestyle: Lifestyle, now: string, timestamp: string, draw: real)
    requires 0.0 <= draw < 1.0
    requires Sliders.LifestyleToAdjustments(Traits.CalculateFromTags(tags), lifestyle).publicness == 0.0
    ensures Generate(userId, username, tags, lifestyle, now, timestamp, draw).adjustments.publicness == 50.0
  {
    var d := Sliders.LifestyleToAdjustments(Traits.CalculateFromTags(tags), lifestyle);
    assert Generate(userId, username, tags, lifestyle, now, timestamp, draw).adjustments == OrFiftyAll(d);
  }

  /** Every other derived slider is reported unchanged. */
  lemma NonZeroSlidersKept(userId: string, username: string, tags: seq<TagSelection>,
                           lifestyle: Lifestyle, now: string, timestamp: string, draw: real)
    requires 0.0 <= draw < 1.0
    ensures var d := Sliders.LifestyleToAdjustments(Traits.CalculateFromTags(tags), lifestyle);
      var a := Generate(userId, username, tags, lifestyle, now, timestamp, draw).adjustments;
      && (d.dominanceLevel != 0.0 ==> a.dominanceLevel == d.dominanceLevel)
      && (d.intensityLevel != 0.0 ==> a.intensityLevel == d.intensityLevel)
      && (d.emotionalDepth != 0.0 ==> a.emotionalDepth == d.emotionalDepth)
      && (d.experience != 0.0 ==> a.experience == d.experience)
      && (d.publicness != 0.0 ==> a.publicness == d.publicness)
  {
    var d := Sliders.LifestyleToAdjustments(Traits.CalculateFromTags(tags), lifestyle);
    assert Generate(userId, username, tags, lifestyle, now, timestamp, draw).adjustments == OrFiftyAll(d);
  }

  // ---------------------------------------------------------------------------
  // An input whose publicness is derived as 0
  // ---------------------------------------------------------------------------

  const FearTag := TagSelection("psychological.emotions.fear", Must, 5, "psychological")
  const FiveFears := [FearTag, FearTag, FearTag, FearTag, FearTag]

  const FearLetters: set<char> :=
    {'.', 'a', 'c', 'e', 'f', 'g', 'h', 'i', 'l', 'm', 'n', 'o', 'p', 'r', 's', 't', 'y'}

  const FearPairs: set<(char, char)> := {
    ('p', 's'), ('s', 'y'), ('y', 'c'), ('c', 'h'), ('h', 'o'), ('o', 'l'), ('l', 'o'),
    ('o', 'g'), ('g', 'i'), ('i', 'c'), ('c', 'a'), ('a', 'l'), ('l', '.'), ('.', 'e'),
    ('e', 'm'), ('m', 'o'), ('o', 't'), ('t', 'i'), ('i', 'o'), ('o', 'n'), ('n', 's'),
    ('s', '.'), ('.', 'f'), ('f', 'e'), ('e', 'a'), ('a', 'r')}

  lemma FearSpelling()
    ensures forall j | 0 <= j < |FearTag.tagId| :: FearTag.tagId[j] in FearLetters
    ensures forall j | 0 <= j < |FearTag.tagId| - 1 :: (FearTag.tagId[j], FearTag.tagId[j + 1]) in FearPairs
  {
  }

  /** `roleplay.petplay` is spelt from the id's letters but starts with the
      pair "ro", which the id never has. */
  lemma FearMissesRoleplay()
    ensures !Contains(FearTag.tagId, "roleplay.petplay")
  {
    FearSpelling();
    NotContainsForeignPair(FearTag.tagId, "roleplay.petplay", 0, FearPairs);
  }

  /** `psychological.emotions.fear` holds no extraversion keyword: the other
      five each carry a letter it lacks. */
  lemma FearMissesExtraversion()
    ensures !Traits.Hits(FearTag, Traits.Keywords(Extraversion))
  {
    var kws := Traits.Keywords(Extraversion);
    FearSpelling();
    NoneContained(FearTag.tagId, kws[..3] + kws[4..], [1, 1, 1, 1, 24], FearLetters);
    FearMissesRoleplay();
    assert forall k | k in kws :: k == "roleplay.petplay" || k in kws[..3] + kws[4..];
  }

  lemma FearHitsNeuroticism()
    ensures Traits.Hits(FearTag, Traits.Keywords(Neuroticism))
  {
    var k := Traits.Keywords(Neuroticism)[0];
    assert FearTag.tagId[0..0 + |k|] == k;
    assert OccursAt(FearTag.tagId, k, 0);
    assert Contains(FearTag.tagId, k);
    assert k in Traits.Keywords(Neuroticism);
  }

  lemma FiveFearsExtraversion()
    ensures Traits.CalculateFromTags(FiveFears).extraversion == 50
  {
    FearMissesExtraversion();
    Traits.MovesOnlyOnHit(FiveFears, Extraversion);
    assert Traits.CalculateFromTags(FiveFears).Get(Extraversion) == 50;
  }

  lemma FiveFearsNeuroticism()
    ensures Traits.CalculateFromTags(FiveFears).neuroticism == 95
  {
    FearHitsNeuroticism();
    assert Traits.Contribution(FearTag, Neuroticism) == 9;
    assert forall i | 0 <= i < |FiveFears| :: FiveFears[i] == FearTag;
    SumByConstant(FiveFears, (t: TagSelection) => Traits.Contribution(t, Neuroticism), 9);
    assert Traits.TotalContribution(FiveFears, Neuroticism) == 45;
    Traits.ScoreIsClampedContribution(FiveFears, Neuroticism);
    assert Traits.CalculateFromTags(FiveFears).Get(Neuroticism) == 95;
  }

  /** Five fear tags at intensity 5 leave extraversion at 50 and lift
      neuroticism to 95. */
  lemma FiveFearsTraits()
    ensures Traits.CalculateFromTags(FiveFears).extraversion == 50
    ensures Traits.CalculateFromTags(FiveFears).neuroticism == 95
  {
    FiveFearsExtraversion();
    FiveFearsNeuroticism();
  }

  /** For those traits publicness is derived as 0 and reported as 50. */
  lemma FiveFearsReportFifty(userId: string, username: string, lifestyle: Lifestyle,
                             now: string, timestamp: string, draw: real)
    requires 0.0 <= draw < 1.0
    ensures Sliders.LifestyleToAdjustments(Traits.CalculateFromTags(FiveFears), lifestyle).publicness == 0.0
    ensures Generate(userId, username, FiveFears, lifestyle, now, timestamp, draw).adjustments.publicness == 50.0
  {
    FiveFearsTraits();
    Sliders.PublicnessCanBeZero(Traits.CalculateFromTags(FiveFears), lifestyle);
    DerivedZeroBecomesFifty(userId, username, FiveFears, lifestyle, now, timestamp, draw);
  }

  // ---------------------------------------------------------------------------
  // Labels
  // ---------------------------------------------------------------------------

  /** All-50 traits read Ambivertiert, Traditionell, Spontan, Direkt, Stabil. */
  lemma NeutralLabels()
    ensures PersonalityLabels(Neutral) == Personality("Ambivertiert", "Traditionell", "Spontan", "Direkt", "Stabil")
  {
  }

  /** The two label schemes agree at the extremes: a trait labelled high by
      character/character.ts (above 70) is labelled high here (above 65), and
      one labelled low there (below 30) is labelled low here. */
  lemma LabelsAgreeOnExtremes(b: Big5)
    ensures var there, here := CharacterService.PersonalityLabels(b), PersonalityLabels(b);
      && (there.extraversion == "Extrovert" ==> here.extraversion == "Extrovertiert")
      && (there.extraversion == "Introvert" ==> here.extraversion == "Introvertiert")
      && (there.openness == "Very Open" ==> here.openness == "Experimentierfreudig")
      && (there.openness == "Traditional" ==> here.openness == "Traditionell")
      && (there.conscientiousness == "Organized" ==> here.conscientiousness == "Gewissenhaft")
      && (there.conscientiousness == "Spontaneous" ==> here.conscientiousness == "Spontan")
      && (there.agreeableness == "Compassionate" ==> here.agreeableness == "Empathisch")
      && (there.agreeableness == "Assertive" ==> here.agreeableness == "Direkt")
      && (there.neuroticism == "Sensitive" ==> here.neuroticism == "Emotional intensiv")
      && (there.neuroticism == "Resilient" ==> here.neuroticism == "Stabil")
  {
  }

  // ---------------------------------------------------------------------------
  // The description call as written
  // ---------------------------------------------------------------------------

  /** The first read `DescriptionGenerator.generate` makes of the character it
      is handed: up to three must-haves from its tag summary. With no summary
      that read is a TypeError. */
  function DescriptionMustHaves(summary: Option<TagsSummary>): (r: Result<seq<string>>)
    ensures r.Failure? <==> summary.None?
    ensures r.Ok? ==> r.value <= summary.value.mustHaves && |r.value| == MinNat(3, |summary.value.mustHaves|)
  {
    match summary
    case None => Failure("TypeError: Cannot read properties of undefined (reading 'mustHaves')")
    case Some(s) => Ok(Prefix(s.mustHaves, 3))
  }

  /** `generate` as written hands `{}` to the description generator, so the
      description step throws before any record is returned. */
  function GenerateAsWritten(userId: string, username: string, tags: seq<TagSelection>, lifestyle: Lifestyle,
                             now: string, timestamp: string, draw: real): (r: Result<Character>)
    requires 0.0 <= draw < 1.0
    ensures r.Failure?
  {
    match DescriptionMustHaves(None)
    case Failure(e) => Failure(e)
    case Ok(_) => Ok(Generate(userId, username, tags, lifestyle, now, timestamp, draw))
  }

  /** Handing over the assembled summary instead, the description step reads
      the first three must-have segments of the request. */
  lemma DescriptionReadsTheSummary(tags: seq<TagSelection>)
    ensures var r := DescriptionMustHaves(Some(Summary(tags)));
      && r.Ok?
      && r.value == Prefix(SegmentsOfType(tags, Must), 3)
  {
  }
}
