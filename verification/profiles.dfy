/** The records the engine works on: tag selections, the lifestyle
    questionnaire, the five trait scores, the five adjustment sliders and the
    assembled character profile. Field names follow the `Character8D` family of
    interfaces; optional fields are `Option`s, `None` standing for `undefined`. */
module Profiles {
  import opened Common

  datatype TagType = Must | Nice

  /** One selected tag: a dotted taxonomy id, its must/nice designation, an
      intensity (1..5 once validated) and a category label. */
  datatype TagSelection = TagSelection(
    tagId: string,
    tagType: TagType,
    intensity: int,
    category: string)

  datatype MediaConsumption = MediaConsumption(
    literature: Option<string>,
    film: Option<string>,
    gaming: Option<string>,
    music: Option<string>)

  /** The lifestyle questionnaire; every answer is optional. */
  datatype Lifestyle = Lifestyle(
    // daily life
    housing: Option<string>,
    career: Option<string>,
    workHours: Option<string>,
    dailyRhythm: Option<string>,
    energyLevel: Option<string>,
    diet: Option<string>,
    fitness: Option<string>,
    bodyRelationship: Option<string>,
    smoking: Option<string>,
    alcohol: Option<string>,
    drugs: Option<seq<string>>,
    // intellect
    education: Option<string>,
    intellectualInterests: Option<seq<string>>,
    mediaConsumption: Option<MediaConsumption>,
    creativity: Option<seq<string>>,
    // social behaviour
    communicationStyle: Option<string>,
    texting: Option<string>,
    conflictBehavior: Option<string>,
    friendCircle: Option<string>,
    familyRelationship: Option<string>,
    // values
    politics: Option<string>,
    spirituality: Option<string>,
    environment: Option<string>,
    wantChildren: Option<string>,
    // relationship philosophy
    relationshipStructure: Option<string>,
    commitment: Option<string>,
    romance: Option<string>,
    jealousy: Option<string>,
    // aesthetics
    fashionStyle: Option<string>,
    bodyModifications: Option<seq<string>>,
    hairStyle: Option<string>,
    beard: Option<string>,
    // practicalities
    outStatus: Option<string>,
    mobility: Option<string>,
    availability: Option<string>)

  /** The empty questionnaire `{}`. */
  const NoLifestyle := Lifestyle(
    None, None, None, None, None, None, None, None, None, None, None,
    None, None, None, None,
    None, None, None, None, None,
    None, None, None, None,
    None, None, None, None,
    None, None, None, None,
    None, None, None)

  /** The five trait dimensions, in the order every loop of the engine visits them. */
  datatype Dimension = Extraversion | Openness | Conscientiousness | Agreeableness | Neuroticism

  const Dimensions: seq<Dimension> :=
    [Extraversion, Openness, Conscientiousness, Agreeableness, Neuroticism]

  /** The five trait scores. */
  datatype Big5 = Big5(
    extraversion: int,
    openness: int,
    conscientiousness: int,
    agreeableness: int,
    neuroticism: int)
  {
    function Get(d: Dimension): int {
      match d
      case Extraversion => extraversion
      case Openness => openness
      case Conscientiousness => conscientiousness
      case Agreeableness => agreeableness
      case Neuroticism => neuroticism
    }

    /** Every score lies in [0, 100]. */
    predicate InRange() {
      forall d :: 0 <= Get(d) <= 100
    }
  }

  /** The "no signal" baseline every inference starts from. */
  const Neutral := Big5(50, 50, 50, 50, 50)

  /** The five sliders. */
  datatype Adjustments = Adjustments(
    dominanceLevel: real,
    intensityLevel: real,
    emotionalDepth: real,
    experience: real,
    publicness: real)
  {
    predicate InRange() {
      && 0.0 <= dominanceLevel <= 100.0
      && 0.0 <= intensityLevel <= 100.0
      && 0.0 <= emotionalDepth <= 100.0
      && 0.0 <= experience <= 100.0
      && 0.0 <= publicness <= 100.0
    }
  }

  /** Caller-supplied slider overrides; each one is optional. */
  datatype AdjustmentOverrides = AdjustmentOverrides(
    dominanceLevel: Option<real>,
    intensityLevel: Option<real>,
    emotionalDepth: Option<real>,
    experience: Option<real>,
    publicness: Option<real>)

  datatype TagsSummary = TagsSummary(
    mustHaves: seq<string>,
    niceToHaves: seq<string>,
    totalTags: nat)

  /** The per-trait human-readable labels. */
  datatype Personality = Personality(
    extraversion: string,
    openness: string,
    conscientiousness: string,
    agreeableness: string,
    neuroticism: string)

  datatype ArchetypeSummary = ArchetypeSummary(
    name: string,
    description: string,
    keywords: seq<string>,
    compatibility: real)

  /** `longDescription` is `None` where the text would come from the prose
      generator, which this model does not cover. */
  datatype GeneratedProfile = GeneratedProfile(
    shortBio: string,
    longDescription: Option<string>,
    keywords: seq<string>)

  /** The assembled profile. */
  datatype Character = Character(
    id: string,
    userId: string,
    username: string,
    tags: seq<TagSelection>,
    tagsSummary: TagsSummary,
    big5: Big5,
    personality: Personality,
    lifestyle: Lifestyle,
    archetype: ArchetypeSummary,
    generatedProfile: GeneratedProfile,
    adjustments: Adjustments,
    createdAt: string,
    updatedAt: string)

  /** A three-way label: above `hi`, below `lo`, or in between. */
  function Label(v: int, hi: int, lo: int, above: string, below: string, between: string): (r: string)
    ensures v > hi ==> r == above
    ensures v <= hi && v < lo ==> r == below
    ensures lo <= v <= hi ==> r == between
  {
    if v > hi then above else if v < lo then below else between
  }

  /** With three distinct labels and bands that do not overlap, each label
      marks exactly its band. */
  lemma LabelBands(v: int, hi: int, lo: int, above: string, below: string, between: string)
    requires above != below && above != between && below != between
    requires lo <= hi + 1
    ensures Label(v, hi, lo, above, below, between) == above <==> v > hi
    ensures Label(v, hi, lo, above, below, between) == below <==> v < lo
    ensures Label(v, hi, lo, above, below, between) == between <==> lo <= v <= hi
  {
  }

  /** A larger value never gets a lower label. */
  lemma LabelMonotone(v: int, w: int, hi: int, lo: int, above: string, below: string, between: string)
    requires v <= w
    requires above != below && above != between && below != between
    requires lo <= hi + 1
    ensures Label(v, hi, lo, above, below, between) == above ==> Label(w, hi, lo, above, below, between) == above
    ensures Label(w, hi, lo, above, below, between) == below ==> Label(v, hi, lo, above, below, between) == below
    ensures Label(v, hi, lo, above, below, between) == between ==> Label(w, hi, lo, above, below, between) != below
  {
  }

  /** `tags.filter(t => t.tagType === ty).map(t => t.tagId)`. */
  function TagIdsOfType(tags: seq<TagSelection>, ty: TagType): (ids: seq<string>)
    ensures |ids| <= |tags|
    ensures forall id | id in ids :: exists t | t in tags :: t.tagType == ty && t.tagId == id
  {
    if tags == [] then []
    else (if tags[0].tagType == ty then [tags[0].tagId] else []) + TagIdsOfType(tags[1..], ty)
  }

  /** `tags.map(t => t.tagId)`. */
  function TagIds(tags: seq<TagSelection>): (ids: seq<string>)
    ensures |ids| == |tags|
    ensures forall i | 0 <= i < |tags| :: ids[i] == tags[i].tagId
  {
    if tags == [] then [] else [tags[0].tagId] + TagIds(tags[1..])
  }

  /** Every tag is either a must-have or a nice-to-have, so the two id lists
      share out the tag list between them. */
  lemma MustAndNicePartition(tags: seq<TagSelection>)
    ensures |TagIdsOfType(tags, Must)| + |TagIdsOfType(tags, Nice)| == |tags|
    ensures multiset(TagIdsOfType(tags, Must)) + multiset(TagIdsOfType(tags, Nice)) == multiset(TagIds(tags))
  {
    MustAndNiceLengths(tags);
    MustAndNiceIds(tags);
  }

  lemma {:induction false} MustAndNiceLengths(tags: seq<TagSelection>)
    ensures |TagIdsOfType(tags, Must)| + |TagIdsOfType(tags, Nice)| == |tags|
  {
    if tags != [] {
      MustAndNiceLengths(tags[1..]);
    }
  }

  lemma {:induction false} MustAndNiceIds(tags: seq<TagSelection>)
    ensures multiset(TagIdsOfType(tags, Must)) + multiset(TagIdsOfType(tags, Nice)) == multiset(TagIds(tags))
  {
    if tags != [] {
      var rest, id := tags[1..], tags[0].tagId;
      MustAndNiceIds(rest);
      assert TagIds(tags) == [id] + TagIds(rest);
      if tags[0].tagType == Must {
        assert TagIdsOfType(tags, Must) == [id] + TagIdsOfType(rest, Must);
      } else {
        assert TagIdsOfType(tags, Nice) == [id] + TagIdsOfType(rest, Nice);
      }
    }
  }
}
