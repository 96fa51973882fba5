/** The archetype catalog and the two classifiers that pick an entry from it:
    `ArchetypeGenerator.detect` (src/services/characterGenerator8D.ts), which
    adds ten points per tag that mentions one of an archetype's keywords, and
    `ArchetypeGenerator.determineArchetype` (character/generator.ts), which adds
    lifestyle bonuses instead.

    Both catalogs hold the same ten entries in the same order; they differ only
    in the object key of the sissy entry (`creativesissy` against
    `creativeSissy`), and only the second classifier reads keys. The keys here
    are those of character/generator.ts.

    Both classifiers sort the scores descending with a stable sort and take the
    head; that is the FIRST index holding the maximum score (`FirstArgMax`). */
module Archetypes {
  import opened Common
  import opened Profiles
  import Traits

  datatype Band = Low | Medium | High

  /** The expected band for each trait. */
  datatype Pattern = Pattern(
    extraversion: Band,
    openness: Band,
    conscientiousness: Band,
    agreeableness: Band,
    neuroticism: Band)
  {
    function Get(d: Dimension): Band {
      match d
      case Extraversion => extraversion
      case Openness => openness
      case Conscientiousness => conscientiousness
      case Agreeableness => agreeableness
      case Neuroticism => neuroticism
    }
  }

  /** What the classifiers read of an archetype; the display text is kept
      apart in `Name` and `Description`. */
  datatype Archetype = Archetype(
    key: string,
    keywords: seq<string>,
    pattern: Pattern)

  const IronDomEntry := Archetype("ironDom",
    ["Impact Play", "Protocol", "Struktur", "Commanding", "Business-Mind"],
    Pattern(High, Low, High, Low, Low))

  const CaringDommeEntry := Archetype("caringDomme",
    ["Caregiving", "Fürsorge", "Vertrauensvolle Kontrolle", "DD/lg", "Aftercare"],
    Pattern(Medium, High, High, High, Low))

  const NurturingPupEntry := Archetype("nurturingPup",
    ["Petplay", "ABDL", "Little", "Regression", "Sicherheit suchen", "Latex"],
    Pattern(Low, High, Medium, High, Medium))

  const QuietThinkerEntry := Archetype("quietThinker",
    ["Edging", "Sensory Deprivation", "Precision", "ABDL", "Tech-Savvy"],
    Pattern(Low, Medium, High, Medium, High))

  const WildExplorerEntry := Archetype("wildExplorer",
    ["Experimental", "Exhibitionism", "Party", "Polyamor", "Abenteuer"],
    Pattern(High, High, Low, Medium, Low))

  const CreativeSissyEntry := Archetype("creativeSissy",
    ["Sissification", "Crossdressing", "Fashion", "Exhibitionism", "Performance"],
    Pattern(High, High, Medium, Low, Medium))

  const ExtremeEnthusiastEntry := Archetype("extremeEnthusiast",
    ["Extreme", "Needle Play", "Branding", "Blood Play", "No Limits"],
    Pattern(Low, High, Medium, Low, High))

  const SubmissiveArtistEntry := Archetype("submissiveArtist",
    ["Shibari", "Bondage", "Rope", "Artistic", "Submission Bliss"],
    Pattern(Low, High, Medium, High, Medium))

  const DominantCollectorEntry := Archetype("dominantCollector",
    ["Polyamor", "Multiple Partners", "Versatile Dominance", "FinDom", "Service Tops"],
    Pattern(High, High, High, Low, Low))

  const IntimateVanillaEntry := Archetype("intimateVanilla",
    ["Relationship", "Emotional Connection", "Mild Kink", "Intimacy", "24/7 Devotion"],
    Pattern(Medium, Low, High, High, Low))

  /** The ten archetypes in declaration order. */
  const Catalog: seq<Archetype> := [
    IronDomEntry,
    CaringDommeEntry,
    NurturingPupEntry,
    QuietThinkerEntry,
    WildExplorerEntry,
    CreativeSissyEntry,
    ExtremeEnthusiastEntry,
    SubmissiveArtistEntry,
    DominantCollectorEntry,
    IntimateVanillaEntry]

  /** The display name of the catalog entry with this key. */
  function Name(key: string): string {
    if key == "ironDom" then "🔩 Der eiserne Dom"
    else if key == "caringDomme" then "❤️ Die liebevolle Herrin"
    else if key == "nurturingPup" then "🐕 Der fürsorglich Welpe"
    else if key == "quietThinker" then "🧠 Der stille Denker"
    else if key == "wildExplorer" then "🔥 Der wilde Explorer"
    else if key == "creativeSissy" then "✨ Die kreative Sissy"
    else if key == "extremeEnthusiast" then "⚡ Der Extrem-Enthusiast"
    else if key == "submissiveArtist" then "🎨 Der unterwürfige Künstler"
    else if key == "dominantCollector" then "👑 Die dominante Sammlerin"
    else if key == "intimateVanilla" then "💑 Der intime Vanille-Sub"
    else ""
  }

  /** The catalog description of the entry with this key. */
  function Description(key: string): string {
    if key == "ironDom" then
      "Strukturiert, dominierend, plant alles genau. Du kennst deine Grenzen und Anforderungen, und Sub braucht klare Führung."
    else if key == "caringDomme" then
      "Du kennst dein Herz als Domme: Kontrolle mit Empathie. Dein Sub vertraut dir, weil du ihn/sie verstehst und auffängst."
    else if key == "nurturingPup" then
      "Introvertiert, gefühlvoll, suchst Ruhe in Struktur. Als Petplay/ABDL-Sub tauchst du in Little-Headspace ab und brauchst jemanden, der deine Seele nährt."
    else if key == "quietThinker" then
      "Intellektuell, introvertiert, erforscht Kink durch Theorie und Controlled Stimulation. Dein Play ist präzise, nicht chaotisch."
    else if key == "wildExplorer" then
      "Offen, experimentierfreudig, extrovertiert. Du testest ständig neue Fetische und liebst die Community-Szene. Struktur ist optional."
    else if key == "creativeSissy" then
      "Artistisch, selbstexpressiv, liebst Ästhetik. Dein Crossdressing/Sissy-Spiel ist Kunstform, und der Blick anderer triggert dich."
    else if key == "extremeEnthusiast" then
      "Deine Grenzen sind nicht Grenzen, sie sind Startpunkte. Blutspiele, Brandings, und Extreme sind deine Arena. Vertrau mir, nichts schockiert dich."
    else if key == "submissiveArtist" then
      "Du findest Freiheit in Hingabe. Dein Dom/Domme ist Künstler, und dein Körper ist die Leinwand. Shibari, Bondage, Ästhetik."
    else if key == "dominantCollector" then
      "Viele Sub-Partner, verschiedene Arten von Kontrolle. Du bist Polyamor-Dom mit einem Arsenal von Techniken für jeden Sub-Typ."
    else if key == "intimateVanilla" then
      "Du brauchst Verbindung, nicht Intensity. Kink ist dein Ausdruck von Vertrauen mit deinem Partner. 24/7 bedeutet emotionale Tiefe."
    else ""
  }

  const NurturingPup := 2
  const CreativeSissy := 5
  const SubmissiveArtist := 7
  const DominantCollector := 8

  // ---------------------------------------------------------------------------
  // Band scores
  // ---------------------------------------------------------------------------

  /** The band each weight function rewards. */
  predicate InBand(band: Band, v: int) {
    match band
    case Low => v < 40
    case Medium => 40 <= v <= 60
    case High => v > 60
  }

  /** `big5Weights[band](v)`: the full 30 inside the band, and outside it minus
      the distance to the band's anchor (30, 50 or 70), which is at least 10. */
  function BandScore(band: Band, v: int): (r: int)
    ensures r <= 30
    ensures InBand(band, v) <==> r == 30
    ensures !InBand(band, v) ==> r <= -10
  {
    match band
    case Low => if v < 40 then 30 else -(Abs(v - 30) as int)
    case Medium => if 40 <= v <= 60 then 30 else -(Abs(v - 50) as int)
    case High => if v > 60 then 30 else -(Abs(v - 70) as int)
  }

  /** The five band terms of one archetype. */
  function PatternScore(p: Pattern, b: Big5): (r: int)
    ensures r <= 150
  {
    BandScore(p.extraversion, b.extraversion)
      + BandScore(p.openness, b.openness)
      + BandScore(p.conscientiousness, b.conscientiousness)
      + BandScore(p.agreeableness, b.agreeableness)
      + BandScore(p.neuroticism, b.neuroticism)
  }

  function MediumBands(p: Pattern): nat {
    (if p.extraversion == Medium then 1 else 0)
      + (if p.openness == Medium then 1 else 0)
      + (if p.conscientiousness == Medium then 1 else 0)
      + (if p.agreeableness == Medium then 1 else 0)
      + (if p.neuroticism == Medium then 1 else 0)
  }

  /** On the neutral traits a "medium" band scores 30 and the other two score
      -20, so an archetype scores 50 per medium band minus 100. */
  lemma NeutralPatternScore(p: Pattern)
    ensures PatternScore(p, Neutral) == 50 * MediumBands(p) - 100
  {
  }

  // ---------------------------------------------------------------------------
  // Picking the winner
  // ---------------------------------------------------------------------------

  /** `r` is where a stable descending sort puts its head: a maximum, and no
      earlier entry reaches it. */
  predicate IsFirstBest(s: seq<int>, r: int) {
    && 0 <= r < |s|
    && (forall j | 0 <= j < |s| :: s[j] <= s[r])
    && (forall j | 0 <= j < r :: s[j] < s[r])
  }

  /** `Object.entries(scores).sort(([, a], [, b]) => b - a)[0]`. */
  function FirstArgMax(s: seq<int>): (r: nat)
    requires |s| > 0
    ensures IsFirstBest(s, r)
    decreases |s|
  {
    if |s| == 1 then 0
    else
      var front := s[..|s| - 1];
      var k := FirstArgMax(front);
      assert forall j | 0 <= j < |front| :: front[j] == s[j];
      if s[|s| - 1] > s[k] then |s| - 1 else k
  }

  lemma FirstBestComesFirst(s: seq<int>, r: int, j: int)
    requires IsFirstBest(s, r) && 0 <= j < |s| && s[j] == s[r]
    ensures r <= j
  {
  }

  /** At most one index is the first maximum. */
  lemma FirstBestUnique(s: seq<int>, i: int, j: int)
    requires IsFirstBest(s, i) && IsFirstBest(s, j)
    ensures i == j
  {
    assert s[i] <= s[j] && s[j] <= s[i];
    FirstBestComesFirst(s, i, j);
    FirstBestComesFirst(s, j, i);
  }

  /** Raising one score can only keep the winner or hand the win to the raised
      entry. */
  lemma RaisingOneScore(s: seq<int>, j: nat, d: nat)
    requires j < |s|
    ensures var t := s[j := s[j] + d];
      FirstArgMax(t) == FirstArgMax(s) || FirstArgMax(t) == j
  {
    var t := s[j := s[j] + d];
    var r, q := FirstArgMax(s), FirstArgMax(t);
    if q != j {
      // q and r are both maxima of both lists, so neither comes before the other.
      assert t[q] == s[q] && s[r] <= t[r];
      assert s[q] == s[r] && t[r] == t[q];
      FirstBestComesFirst(s, r, q);
      FirstBestComesFirst(t, q, r);
    }
  }

  // ---------------------------------------------------------------------------
  // detect: band scores plus ten per tag naming a keyword
  // ---------------------------------------------------------------------------

  /** `archetype.keywords.some(kw => t.tagId.toLowerCase().includes(kw.toLowerCase()))`. */
  predicate KeywordHit(t: TagSelection, keywords: seq<string>) {
    exists kw | kw in keywords :: Contains(Lower(t.tagId), Lower(kw))
  }

  /** `tags.filter(...).length`. */
  function HitCount(tags: seq<TagSelection>, keywords: seq<string>): (n: nat)
    ensures n <= |tags|
    ensures n == 0 <==> forall t | t in tags :: !KeywordHit(t, keywords)
  {
    if tags == [] then 0
    else (if KeywordHit(tags[0], keywords) then 1 else 0) + HitCount(tags[1..], keywords)
  }

  function DetectScore(a: Archetype, b: Big5, tags: seq<TagSelection>): int {
    PatternScore(a.pattern, b) + HitCount(tags, a.keywords) * 10
  }

  function DetectScores(b: Big5, tags: seq<TagSelection>): (s: seq<int>)
    ensures |s| == |Catalog|
  {
    seq(|Catalog|, i requires 0 <= i < |Catalog| => DetectScore(Catalog[i], b, tags))
  }

  /** `detect`: the first archetype with the highest score. */
  function DetectIndex(b: Big5, tags: seq<TagSelection>): (i: nat)
    ensures i < |Catalog|
    ensures IsFirstBest(DetectScores(b, tags), i)
  {
    FirstArgMax(DetectScores(b, tags))
  }

  /** `detect`: the entry with the highest score, the earliest one among
      equal scores. */
  function Detect(b: Big5, tags: seq<TagSelection>): (a: Archetype)
    ensures a in Catalog
    ensures exists i | 0 <= i < |Catalog| :: IsFirstBest(DetectScores(b, tags), i) && a == Catalog[i]
  {
    var i := DetectIndex(b, tags);
    assert IsFirstBest(DetectScores(b, tags), i);
    Catalog[i]
  }

  /** Without tags, `detect` reads nothing but the band scores. */
  lemma DetectWithoutTags(b: Big5)
    ensures forall i | 0 <= i < |Catalog| :: DetectScores(b, [])[i] == PatternScore(Catalog[i].pattern, b)
  {
  }

  // ---------------------------------------------------------------------------
  // determineArchetype: band scores plus lifestyle bonuses
  // ---------------------------------------------------------------------------

  /** +20 for the polyamorous dominant collector, +15 for the creative sissy. */
  function LifestyleBonus(key: string, l: Lifestyle): int {
    (if l.relationshipStructure == Some("polyamorous") && key == "dominantCollector" then 20 else 0)
      + (if l.career == Some("creative") && key == "creativeSissy" then 15 else 0)
  }

  function DetermineScores(b: Big5, l: Lifestyle): (s: seq<int>)
    ensures |s| == |Catalog|
  {
    seq(|Catalog|, i requires 0 <= i < |Catalog| =>
    PatternScore(Catalog[i].pattern, b) + LifestyleBonus(Catalog[i].key, l))
  }

  function DetermineIndex(b: Big5, l: Lifestyle): (i: nat)
    ensures i < |Catalog|
    ensures IsFirstBest(DetermineScores(b, l), i)
  {
    FirstArgMax(DetermineScores(b, l))
  }

  /** `determineArchetype`: the entry with the highest score, the earliest
      one among equal scores. */
  function DetermineArchetype(b: Big5, l: Lifestyle): (a: Archetype)
    ensures a in Catalog
    ensures exists i | 0 <= i < |Catalog| :: IsFirstBest(DetermineScores(b, l), i) && a == Catalog[i]
  {
    var i := DetermineIndex(b, l);
    assert IsFirstBest(DetermineScores(b, l), i);
    Catalog[i]
  }

  /** Only the trait vector, `relationshipStructure` and `career` matter. */
  lemma DetermineReadsTwoAnswers(b: Big5, l1: Lifestyle, l2: Lifestyle)
    requires l1.relationshipStructure == l2.relationshipStructure && l1.career == l2.career
    ensures DetermineArchetype(b, l1) == DetermineArchetype(b, l2)
  {
    var s1, s2 := DetermineScores(b, l1), DetermineScores(b, l2);
    forall i | 0 <= i < |Catalog| ensures s1[i] == s2[i] {
      assert LifestyleBonus(Catalog[i].key, l1) == LifestyleBonus(Catalog[i].key, l2);
    }
    assert s1 == s2;
  }

  /** The catalog keys are pairwise distinct. */
  lemma KeysDistinct()
    ensures forall i, j | 0 <= i < j < |Catalog| :: Catalog[i].key != Catalog[j].key
  {
  }

  /** The polyamorous bonus reaches only the dominant collector and the
      creative bonus only the creative sissy. */
  lemma BonusesAreTargeted(b: Big5, l: Lifestyle)
    ensures forall i | 0 <= i < |Catalog| ::
      DetermineScores(b, l)[i] == PatternScore(Catalog[i].pattern, b)
        + (if i == DominantCollector && l.relationshipStructure == Some("polyamorous") then 20 else 0)
        + (if i == CreativeSissy && l.career == Some("creative") then 15 else 0)
  {
    KeysDistinct();
    assert Catalog[DominantCollector].key == "dominantCollector";
    assert Catalog[CreativeSissy].key == "creativeSissy";
  }

  /** Turning a relationship structure into "polyamorous" either leaves the
      winner alone or makes the dominant collector win. */
  lemma PolyamoryOnlyHelpsCollector(b: Big5, l: Lifestyle)
    requires l.relationshipStructure != Some("polyamorous")
    ensures var poly := l.(relationshipStructure := Some("polyamorous"));
      DetermineArchetype(b, poly) == DetermineArchetype(b, l)
      || DetermineArchetype(b, poly) == Catalog[DominantCollector]
  {
    var poly := l.(relationshipStructure := Some("polyamorous"));
    var s, t := DetermineScores(b, l), DetermineScores(b, poly);
    BonusesAreTargeted(b, l);
    BonusesAreTargeted(b, poly);
    assert t == s[DominantCollector := s[DominantCollector] + 20];
    RaisingOneScore(s, DominantCollector, 20);
  }

  /** No archetype expects "medium" on more than two traits; the nurturing pup
      is the first to reach two. */
  lemma MediumBandCounts()
    ensures forall i | 0 <= i < |Catalog| :: MediumBands(Catalog[i].pattern) <= 2
    ensures MediumBands(Catalog[0].pattern) == 0
    ensures MediumBands(Catalog[1].pattern) == 1
    ensures MediumBands(Catalog[NurturingPup].pattern) == 2
  {
  }

  lemma NeutralDetermineScores(i: nat)
    requires i < |Catalog|
    ensures DetermineScores(Neutral, NoLifestyle)[i] == 50 * MediumBands(Catalog[i].pattern) - 100
  {
    NeutralPatternScore(Catalog[i].pattern);
  }

  /** With every trait at 50 and no bonus, four archetypes tie at 0 with two
      "medium" bands; the first of them, the nurturing pup, wins. */
  lemma NeutralIsNurturingPup()
    ensures DetermineArchetype(Neutral, NoLifestyle) == Catalog[NurturingPup]
  {
    var s := DetermineScores(Neutral, NoLifestyle);
    forall i | 0 <= i < |Catalog| ensures s[i] == 50 * MediumBands(Catalog[i].pattern) - 100 {
      NeutralDetermineScores(i);
    }
    MediumBandCounts();
    assert IsFirstBest(s, NurturingPup);
    FirstBestUnique(s, DetermineIndex(Neutral, NoLifestyle), NurturingPup);
  }
  // ---------------------------------------------------------------------------
  // The single-shibari example
  // ---------------------------------------------------------------------------

  lemma ShibariIdIsLowerCase()
    ensures Lower(Traits.ShibariTag.tagId) == Traits.ShibariTag.tagId
  {
  }

  /** No keyword in `kws` occurs, lower-cased, in the shibari tag id: each has a
      letter (at the index listed) that the id is not spelt with. */
  lemma ShibariMisses(kws: seq<string>, idx: seq<nat>)
    requires |idx| == |kws|
    requires forall i | 0 <= i < |kws| :: idx[i] < |kws[i]| && LowerChar(kws[i][idx[i]]) !in Traits.ShibariLetters
    ensures forall kw | kw in kws :: !Contains(Lower(Traits.ShibariTag.tagId), Lower(kw))
  {
    var s := Traits.ShibariTag.tagId;
    ShibariIdIsLowerCase();
    Traits.ShibariSpelling();
    forall kw | kw in kws ensures !Contains(s, Lower(kw)) {
      var i :| 0 <= i < |kws| && kws[i] == kw;
      NotContainsForeignChar(s, Lower(kw), idx[i], Traits.ShibariLetters);
    }
  }

  /** The adjacent letter pairs of `bdsm.bondage.shibari`. */
  const ShibariPairs: set<(char, char)> := {
    ('b', 'd'), ('d', 's'), ('s', 'm'), ('m', '.'), ('.', 'b'), ('b', 'o'), ('o', 'n'),
    ('n', 'd'), ('d', 'a'), ('a', 'g'), ('g', 'e'), ('e', '.'), ('.', 's'), ('s', 'h'),
    ('h', 'i'), ('i', 'b'), ('b', 'a'), ('a', 'r'), ('r', 'i')}

  lemma ShibariPairing()
    ensures forall j | 0 <= j < |Traits.ShibariTag.tagId| - 1 ::
      (Traits.ShibariTag.tagId[j], Traits.ShibariTag.tagId[j + 1]) in ShibariPairs
  {
  }

  /** The three keywords spelt entirely from the id's letters each hold a pair
      of adjacent letters ("re", "ed", "br") that the id never has. */
  lemma ShibariMissesRegression()
    ensures !Contains(Lower(Traits.ShibariTag.tagId), Lower("Regression"))
  {
    ShibariIdIsLowerCase();
    ShibariPairing();
    assert Lower("Regression") == "regression";
    NotContainsForeignPair(Traits.ShibariTag.tagId, "regression", 0, ShibariPairs);
  }

  lemma ShibariMissesEdging()
    ensures !Contains(Lower(Traits.ShibariTag.tagId), Lower("Edging"))
  {
    ShibariIdIsLowerCase();
    ShibariPairing();
    assert Lower("Edging") == "edging";
    NotContainsForeignPair(Traits.ShibariTag.tagId, "edging", 0, ShibariPairs);
  }

  lemma ShibariMissesBranding()
    ensures !Contains(Lower(Traits.ShibariTag.tagId), Lower("Branding"))
  {
    ShibariIdIsLowerCase();
    ShibariPairing();
    assert Lower("Branding") == "branding";
    NotContainsForeignPair(Traits.ShibariTag.tagId, "branding", 0, ShibariPairs);
  }

  lemma ShibariMissesIronDomEntry()
    ensures !KeywordHit(Traits.ShibariTag, IronDomEntry.keywords)
  {
    ShibariMisses(IronDomEntry.keywords, [2, 0, 1, 0, 1]);
  }

  lemma ShibariMissesCaringDommeEntry()
    ensures !KeywordHit(Traits.ShibariTag, CaringDommeEntry.keywords)
  {
    ShibariMisses(CaringDommeEntry.keywords, [0, 0, 0, 2, 1]);
  }

  lemma ShibariMissesNurturingPupEntry()
    ensures !KeywordHit(Traits.ShibariTag, NurturingPupEntry.keywords)
  {
    var kws := NurturingPupEntry.keywords;
    ShibariMisses(kws[..3] + kws[4..], [0, 3, 0, 2, 0]);
    ShibariMissesRegression();
    assert forall kw | kw in kws :: kw == "Regression" || kw in kws[..3] + kws[4..];
  }

  lemma ShibariMissesQuietThinkerEntry()
    ensures !KeywordHit(Traits.ShibariTag, QuietThinkerEntry.keywords)
  {
    var kws := QuietThinkerEntry.keywords;
    ShibariMisses(kws[1..], [6, 0, 3, 0]);
    ShibariMissesEdging();
    assert forall kw | kw in kws :: kw == "Edging" || kw in kws[1..];
  }

  lemma ShibariMissesWildExplorerEntry()
    ensures !KeywordHit(Traits.ShibariTag, WildExplorerEntry.keywords)
  {
    ShibariMisses(WildExplorerEntry.keywords, [1, 1, 0, 0, 4]);
  }

  lemma ShibariMissesCreativeSissyEntry()
    ensures !KeywordHit(Traits.ShibariTag, CreativeSissyEntry.keywords)
  {
    ShibariMisses(CreativeSissyEntry.keywords, [5, 0, 0, 1, 0]);
  }

  lemma ShibariMissesExtremeEnthusiastEntry()
    ensures !KeywordHit(Traits.ShibariTag, ExtremeEnthusiastEntry.keywords)
  {
    var kws := ExtremeEnthusiastEntry.keywords;
    ShibariMisses(kws[..2] + kws[3..], [1, 4, 1, 2]);
    ShibariMissesBranding();
    assert forall kw | kw in kws :: kw == "Branding" || kw in kws[..2] + kws[3..];
  }

  lemma ShibariMissesDominantCollectorEntry()
    ensures !KeywordHit(Traits.ShibariTag, DominantCollectorEntry.keywords)
  {
    ShibariMisses(DominantCollectorEntry.keywords, [0, 1, 0, 0, 3]);
  }

  lemma ShibariMissesIntimateVanillaEntry()
    ensures !KeywordHit(Traits.ShibariTag, IntimateVanillaEntry.keywords)
  {
    ShibariMisses(IntimateVanillaEntry.keywords, [2, 3, 2, 2, 0]);
  }

  lemma ShibariHitsTheArtist()
    ensures KeywordHit(Traits.ShibariTag, SubmissiveArtistEntry.keywords)
  {
    var s := Traits.ShibariTag.tagId;
    ShibariIdIsLowerCase();
    assert Lower("Shibari") == "shibari";
    assert OccursAt(s, "shibari", 13);
    assert Contains(Lower(s), Lower(SubmissiveArtistEntry.keywords[0]));
  }

  /** The shibari tag mentions a keyword of the submissive artist and of no
      other archetype. */
  lemma ShibariHitsOnlyTheArtist(i: nat)
    requires i < |Catalog|
    ensures KeywordHit(Traits.ShibariTag, Catalog[i].keywords) <==> i == SubmissiveArtist
  {
    match i
    case 0 => ShibariMissesIronDomEntry();
    case 1 => ShibariMissesCaringDommeEntry();
    case 2 => ShibariMissesNurturingPupEntry();
    case 3 => ShibariMissesQuietThinkerEntry();
    case 4 => ShibariMissesWildExplorerEntry();
    case 5 => ShibariMissesCreativeSissyEntry();
    case 6 => ShibariMissesExtremeEnthusiastEntry();
    case 7 => ShibariHitsTheArtist();
    case 8 => ShibariMissesDominantCollectorEntry();
    case 9 => ShibariMissesIntimateVanillaEntry();
  }

  /** The detect score of each archetype for the lone shibari tag. */
  lemma ShibariDetectScore(i: nat)
    requires i < |Catalog|
    ensures DetectScores(Neutral, [Traits.ShibariTag])[i]
            == 50 * MediumBands(Catalog[i].pattern) - 100 + (if i == SubmissiveArtist then 10 else 0)
  {
    NeutralPatternScore(Catalog[i].pattern);
    ShibariHitsOnlyTheArtist(i);
    assert HitCount([Traits.ShibariTag], Catalog[i].keywords) == if i == SubmissiveArtist then 1 else 0;
  }

  /** On neutral traits the lone shibari tag makes the submissive artist win
      with 0 on the bands plus 10. */
  lemma ShibariNeutralDetect()
    ensures DetectIndex(Neutral, [Traits.ShibariTag]) == SubmissiveArtist
    ensures DetectScores(Neutral, [Traits.ShibariTag])[SubmissiveArtist] == 10
  {
    var tags := [Traits.ShibariTag];
    var s := DetectScores(Neutral, tags);
    MediumBandCounts();
    forall i | 0 <= i < |Catalog|
      ensures s[i] == 50 * MediumBands(Catalog[i].pattern) - 100 + (if i == SubmissiveArtist then 10 else 0)
    {
      ShibariDetectScore(i);
    }
    assert MediumBands(Catalog[SubmissiveArtist].pattern) == 2;
    assert IsFirstBest(s, SubmissiveArtist);
    FirstBestUnique(s, DetectIndex(Neutral, tags), SubmissiveArtist);
  }

  /** A lone `bdsm.bondage.shibari` tag leaves the traits neutral and makes
      `detect` return the submissive artist, the only archetype with a keyword
      hit. */
  lemma ShibariIsSubmissiveArtist()
    ensures Traits.CalculateFromTags([Traits.ShibariTag]) == Neutral
    ensures Detect(Traits.CalculateFromTags([Traits.ShibariTag]), [Traits.ShibariTag]) == SubmissiveArtistEntry
  {
    Traits.ShibariStaysNeutral();
    ShibariNeutralDetect();
  }
}
