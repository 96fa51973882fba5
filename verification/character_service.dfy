/** The pure body of the `generate` endpoint of character/character.ts: the
    input check, the trait inference, `determineArchetype`, the slider merge,
    the tag summary, the personality labels and the assembly of the record.
    The clock readings (`Date.now()` in the id, `new Date().toISOString()` for
    the timestamps) are parameters. */
module CharacterService {
  import opened Common
  import opened Profiles
  import Traits
  import Sliders
  import Archetypes

  /** The request body. `tags` is `None` when the field is missing;
      `adjustments` holds the optional slider overrides. */
  datatype GenerateRequest = GenerateRequest(
    userId: string,
    username: string,
    tags: Option<seq<TagSelection>>,
    lifestyle: Lifestyle,
    adjustments: Option<AdjustmentOverrides>)

  const MissingFields := "Missing required fields: userId, username, or tags"

  /** The request passes the input check. */
  predicate Accepted(req: GenerateRequest) {
    req.userId != "" && req.username != "" && req.tags.Some? && |req.tags.value| > 0
  }

  /** `override ?? derived ?? 50`. */
  function MergeSlider(override: Option<real>, derived: Option<real>): (r: real)
    ensures override.Some? ==> r == override.value
    ensures override.None? && derived.Some? ==> r == derived.value
    ensures override.None? && derived.None? ==> r == 50.0
  {
    match override
    case Some(v) => v
    case None => match derived
      case Some(d) => d
      case None => 50.0
  }

  /** The overrides of a request, every one absent when `adjustments` is. */
  function Overrides(req: GenerateRequest): AdjustmentOverrides {
    match req.adjustments
    case Some(o) => o
    case None => AdjustmentOverrides(None, None, None, None, None)
  }

  /** Step 4. `lifestyleToAdjustments` always sets all five sliders, so the
      trailing `?? 50` never applies. */
  function MergeAdjustments(o: AdjustmentOverrides, base: Adjustments): (r: Adjustments)
    ensures o.dominanceLevel.None? ==> r.dominanceLevel == base.dominanceLevel
    ensures o.intensityLevel.None? ==> r.intensityLevel == base.intensityLevel
    ensures o.emotionalDepth.None? ==> r.emotionalDepth == base.emotionalDepth
    ensures o.experience.None? ==> r.experience == base.experience
    ensures o.publicness.None? ==> r.publicness == base.publicness
    ensures o.dominanceLevel.Some? ==> r.dominanceLevel == o.dominanceLevel.value
    ensures o.intensityLevel.Some? ==> r.intensityLevel == o.intensityLevel.value
    ensures o.emotionalDepth.Some? ==> r.emotionalDepth == o.emotionalDepth.value
    ensures o.experience.Some? ==> r.experience == o.experience.value
    ensures o.publicness.Some? ==> r.publicness == o.publicness.value
  {
    Adjustments(
      MergeSlider(o.dominanceLevel, Some(base.dominanceLevel)),
      MergeSlider(o.intensityLevel, Some(base.intensityLevel)),
      MergeSlider(o.emotionalDepth, Some(base.emotionalDepth)),
      MergeSlider(o.experience, Some(base.experience)),
      MergeSlider(o.publicness, Some(base.publicness)))
  }

  /** Merging the same overrides a second time changes nothing. */
  lemma MergeIsIdempotent(o: AdjustmentOverrides, base: Adjustments)
    ensures MergeAdjustments(o, MergeAdjustments(o, base)) == MergeAdjustments(o, base)
  {
  }

  /** Overrides in [0, 100], as the request schema admits them. */
  predicate OverridesInRange(o: AdjustmentOverrides) {
    && (o.dominanceLevel.Some? ==> 0.0 <= o.dominanceLevel.value <= 100.0)
    && (o.intensityLevel.Some? ==> 0.0 <= o.intensityLevel.value <= 100.0)
    && (o.emotionalDepth.Some? ==> 0.0 <= o.emotionalDepth.value <= 100.0)
    && (o.experience.Some? ==> 0.0 <= o.experience.value <= 100.0)
    && (o.publicness.Some? ==> 0.0 <= o.publicness.value <= 100.0)
  }

  /** Step 6: each trait is labelled at the thresholds 70 and 30. */
  function PersonalityLabels(b: Big5): Personality {
    Personality(
      Label(b.extraversion, 70, 30, "Extrovert", "Introvert", "Ambivert"),
      Label(b.openness, 70, 30, "Very Open", "Traditional", "Balanced"),
      Label(b.conscientiousness, 70, 30, "Organized", "Spontaneous", "Flexible"),
      Label(b.agreeableness, 70, 30, "Compassionate", "Assertive", "Balanced"),
      Label(b.neuroticism, 70, 30, "Sensitive", "Resilient", "Stable"))
  }

  /** `char_${now}_${userId.slice(0, 8)}`. */
  function CharacterId(now: string, userId: string): string {
    "char_" + now + "_" + Prefix(userId, 8)
  }

  /** The endpoint. It throws unless user id, user name and a non-empty tag
      list are all given; otherwise the record is built from the inferred
      traits, the archetype `determineArchetype` picks, and the merged
      sliders. */
  function Generate(req: GenerateRequest, now: string, timestamp: string): (r: Result<Character>)
    ensures r.Failure? <==> !Accepted(req)
    ensures r.Failure? ==> r.error == MissingFields
    ensures r.Ok? ==>
      var c := r.value;
      && c.userId == req.userId && c.username == req.username
      && c.tags == req.tags.value && c.lifestyle == req.lifestyle
      && c.big5.InRange()
      && c.tagsSummary.totalTags == |req.tags.value|
      && |c.tagsSummary.mustHaves| + |c.tagsSummary.niceToHaves| == c.tagsSummary.totalTags
      && c.archetype.compatibility == 85.0
      && c.generatedProfile.longDescription == Some(c.archetype.description)
      && c.generatedProfile.keywords == c.archetype.keywords
  {
    if !Accepted(req) then Failure(MissingFields)
    else
      var tags := req.tags.value;
      var big5 := Traits.CalculateFromTags(tags);
      var archetype := Archetypes.DetermineArchetype(big5, req.lifestyle);
      var name := Archetypes.Name(archetype.key);
      var description := Archetypes.Description(archetype.key);
      var base := Sliders.LifestyleToAdjustments(big5, req.lifestyle);
      MustAndNicePartition(tags);
      Ok(Character(
        CharacterId(now, req.userId),
        req.userId,
        req.username,
        tags,
        TagsSummary(TagIdsOfType(tags, Must), TagIdsOfType(tags, Nice), |tags|),
        big5,
        PersonalityLabels(big5),
        req.lifestyle,
        ArchetypeSummary(name, description, archetype.keywords, 85.0),
        GeneratedProfile(req.username + " - " + name, Some(description), archetype.keywords),
        MergeAdjustments(Overrides(req), base),
        timestamp,
        timestamp))
  }

  /** Every final slider is the caller's override when given and the derived
      value otherwise; all five lie in [0, 100] when the overrides do. */
  lemma SlidersAreOverrideOrDerived(req: GenerateRequest, now: string, timestamp: string)
    requires Accepted(req)
    ensures var c := Generate(req, now, timestamp).value;
      var o := Overrides(req);
      var base := Sliders.LifestyleToAdjustments(Traits.CalculateFromTags(req.tags.value), req.lifestyle);
      && c.adjustments.dominanceLevel == (if o.dominanceLevel.Some? then o.dominanceLevel.value else base.dominanceLevel)
      && c.adjustments.intensityLevel == (if o.intensityLevel.Some? then o.intensityLevel.value else base.intensityLevel)
      && c.adjustments.emotionalDepth == (if o.emotionalDepth.Some? then o.emotionalDepth.value else base.emotionalDepth)
      && c.adjustments.experience == (if o.experience.Some? then o.experience.value else base.experience)
      && c.adjustments.publicness == (if o.publicness.Some? then o.publicness.value else base.publicness)
    ensures OverridesInRange(Overrides(req)) ==> Generate(req, now, timestamp).value.adjustments.InRange()
  {
  }

  /** The summary lists the full ids of the must-have and of the nice-to-have
      tags, in request order, and between them every tag id once. */
  lemma SummaryListsFullIds(req: GenerateRequest, now: string, timestamp: string)
    requires Accepted(req)
    ensures var c := Generate(req, now, timestamp).value;
      && c.tagsSummary.mustHaves == TagIdsOfType(req.tags.value, Must)
      && c.tagsSummary.niceToHaves == TagIdsOfType(req.tags.value, Nice)
      && multiset(c.tagsSummary.mustHaves) + multiset(c.tagsSummary.niceToHaves) == multiset(TagIds(req.tags.value))
  {
    MustAndNicePartition(req.tags.value);
  }

  /** The archetype block and the short bio copy what `determineArchetype`
      returns. */
  lemma ArchetypeIsDetermined(req: GenerateRequest, now: string, timestamp: string)
    requires Accepted(req)
    ensures var c := Generate(req, now, timestamp).value;
      var a := Archetypes.DetermineArchetype(c.big5, req.lifestyle);
      && a in Archetypes.Catalog
      && c.big5 == Traits.CalculateFromTags(req.tags.value)
      && c.archetype.name == Archetypes.Name(a.key)
      && c.archetype.description == Archetypes.Description(a.key)
      && c.archetype.keywords == a.keywords
      && c.generatedProfile.shortBio == req.username + " - " + Archetypes.Name(a.key)
  {
  }

  /** With `??` a derived slider of 0 is kept: with no override, a publicness
      that clamps to 0 stays 0. */
  lemma DerivedZeroIsKept(req: GenerateRequest, now: string, timestamp: string)
    requires Accepted(req) && Overrides(req).publicness.None?
    requires Sliders.LifestyleToAdjustments(Traits.CalculateFromTags(req.tags.value), req.lifestyle).publicness == 0.0
    ensures Generate(req, now, timestamp).value.adjustments.publicness == 0.0
  {
  }

  /** Neutral traits are labelled Ambivert, Balanced, Flexible, Balanced,
      Stable. */
  lemma NeutralLabels()
    ensures PersonalityLabels(Neutral) == Personality("Ambivert", "Balanced", "Flexible", "Balanced", "Stable")
  {
  }
}
