# Profile derivation and match scoring, modelled in Dafny

This project models the computational core of a kink/fetish matchmaking
backend. A user picks taxonomy tags, each marked must-have or nice-to-have
and given an intensity from 1 to 5, and answers a lifestyle questionnaire.

From these the system:

- infers five personality traits (Big Five, each 0..100) from keyword hits in
  the tag ids;
- derives five sliders (dominance, intensity, emotional depth, experience,
  publicness);
- classifies the user into one of ten archetypes;
- assembles a character record.

Two characters are then scored for compatibility: five sub-scores, a
weighted overall score and a level. The project also models the taxonomy
tree utilities that count, extract, search and look up tags.

The repository holds duplicated and divergent copies of several of these
pieces. Each copy is modelled as written, in its own module:

| module | file | models |
|---|---|---|
| `Common` | common.dfy | JavaScript string, number and list operations the core relies on (`includes`, `split`/`join`, `Math.round`, `new Set`, ...) |
| `Profiles` | profiles.dfy | the records: tag selections, lifestyle answers, traits, sliders, the character |
| `Traits` | traits.dfy | `Big5Calculator.calculateFromTags` (identical text in both generators) |
| `Sliders` | sliders.dfy | `Big5Calculator.lifestyleToAdjustments` (identical text in both generators) |
| `Archetypes` | archetypes.dfy | the ten-entry catalog, the band scores, `detect` (tag bonus) and `determineArchetype` (lifestyle bonus) |
| `CharacterService` | character_service.dfy | the `generate` endpoint of character/character.ts |
| `Generator8D` | generator8d.dfy | `CharacterGenerator8D.generate` of src/services/characterGenerator8D.ts |
| `Matching` | matching.dfy | the canonical scorer of matching/matching.ts with its 85/70/55/40 level ladder |
| `MatchingEngine` | matching_engine.dfy | the `MatchingEngine` of src/services/matchingEngine.ts that the Express server calls |
| `Taxonomy` | taxonomy.dfy | the taxonomy service of docs/archive/encore-modules/taxonomy/taxonomy.ts |
| `TaxonomyRoutes` | taxonomy_routes.dfy | the taxonomy routes of src/routes/taxonomy.routes.ts |

Modelling conventions:

- **Numbers.** Weighted formulas use `real`. `Math.round(x)` is `⌊x + ½⌋`. Integer trait scores are `int`.
- **Absent fields.** An absent optional field is `None`. JavaScript truthiness of an optional string is "present and non-empty".
- **Lower-casing.** `toLowerCase` is ASCII-only lowering.
- **Non-determinism as parameters.** Clock readings (ids, timestamps) are string parameters. `Math.random()` in the 8D generator is a parameter `draw` in [0, 1).
- **Catalog keys.** Both generators' catalogs share the keys of character/generator.ts. The 8D file's `creativesissy` spelling is never observable, because `detect` returns the entry, not the key.

## Model

| member | source | states |
|---|---|---|
| Traits.CalculateFromTags | src/services/characterGenerator8D.ts:143-229 | every trait lies in [0, 100]; an empty tag list gives all five traits 50 |
| Traits.ScoreIsClampedContribution | src/services/characterGenerator8D.ts:205-226 | each trait is 50 plus, per tag whose id contains a keyword of that trait, 5 + (intensity - 3)·2, clamped to [0, 100] |
| Traits.MatchedBoostIsContribution | src/services/characterGenerator8D.ts:206-217 | matchCount·5 plus the intensity boost of the matched tags equals the sum of the per-tag contributions |
| Traits.MovesOnlyOnHit | src/services/characterGenerator8D.ts:205-218 | a trait stays 50 unless some tag id contains one of its keywords; with intensities 1..5 it rises above 50 exactly when one does |
| Traits.ContributionPositiveIffHit | src/services/characterGenerator8D.ts:205-218 | with intensities 1..5 the summed contribution is non-negative, and positive exactly when some tag hits |
| Traits.PermutationInvariant | src/services/characterGenerator8D.ts:205-212 | reordering the tag list (equal multisets) never changes any trait |
| Traits.ShibariStaysNeutral | src/services/characterGenerator8D.ts:152-201 | no trait keyword occurs in `bdsm.bondage.shibari`, so that single tag leaves every trait at 50 |
| Sliders.LifestyleToAdjustments | src/services/characterGenerator8D.ts:231-265 | every slider lies in [0, 100]; for traits in range, dominance, intensity and experience are their linear formulas unclamped, and emotional depth and publicness are clamped at 0 only |
| Sliders.DominanceBonuses | src/services/characterGenerator8D.ts:238-241 | for traits in range, dominance is the answer-free value plus exactly 20 for career "business" and 15 for communication style "direct"; every other slider ignores the answers |
| Sliders.OnlyCareerAndCommunicationMatter | src/services/characterGenerator8D.ts:231-265 | two questionnaires that agree on career and communication style give the same sliders |
| Sliders.Monotone | src/services/characterGenerator8D.ts:244-249 | raising openness never lowers intensity or experience; raising neuroticism never raises emotional depth or publicness |
| Sliders.NeutralSliders | character/generator.ts:111-145 | all-50 traits and no answers give dominance 24, intensity 40, emotional depth 25, experience 35, publicness 15 |
| Sliders.PublicnessCanBeZero | src/services/characterGenerator8D.ts:256-262 | with extraversion 50 and neuroticism at least 88, publicness clamps to 0 |
| Archetypes.BandScore | src/services/characterGenerator8D.ts:488-492 | a band scores at most 30; exactly 30 inside the band, and at most -10 outside it |
| Archetypes.FirstArgMax | src/services/characterGenerator8D.ts:520-523 | the stable descending sort's first entry: a maximal score with no equal score before it |
| Archetypes.FirstBestComesFirst | character/generator.ts:320-321 | among equal top scores the earliest declared entry wins |
| Archetypes.FirstBestUnique | character/generator.ts:320-321 | the winner is unique |
| Archetypes.RaisingOneScore | character/generator.ts:309-321 | raising one score either makes that entry the winner or leaves the winner unchanged |
| Archetypes.HitCount | src/services/characterGenerator8D.ts:509-514 | at most the tag count, and 0 exactly when no tag's lower-cased id contains a lower-cased keyword of the entry |
| Archetypes.Detect | src/services/characterGenerator8D.ts:480-524 | `detect` returns the catalog entry with the highest band-plus-keyword score, the earliest declared one among equal scores |
| Archetypes.DetectIndex | src/services/characterGenerator8D.ts:517-523 | the position of the highest band-plus-keyword score, with no equal score before it |
| Archetypes.DetectWithoutTags | src/services/characterGenerator8D.ts:502-514 | without tags each entry scores only its five band terms |
| Archetypes.DetermineArchetype | character/generator.ts:279-322 | `determineArchetype` returns the catalog entry with the highest band-plus-bonus score, the earliest declared one among equal scores |
| Archetypes.DetermineIndex | character/generator.ts:316-321 | the position of the highest band-plus-bonus score, with no equal score before it |
| Archetypes.DetermineReadsTwoAnswers | character/generator.ts:283-317 | the result depends on the traits, `relationshipStructure` and `career` only |
| Archetypes.BonusesAreTargeted | character/generator.ts:309-314 | the polyamorous +20 reaches only the dominant collector and the creative +15 only the creative sissy |
| Archetypes.PolyamoryOnlyHelpsCollector | character/generator.ts:309-321 | answering "polyamorous" either makes the dominant collector win or changes nothing |
| Archetypes.KeysDistinct | character/generator.ts:153-274 | the ten catalog keys are pairwise distinct |
| Archetypes.NeutralPatternScore | character/generator.ts:289-306 | at all-50 traits an entry scores 50 per medium band minus 100 |
| Archetypes.NeutralIsNurturingPup | character/generator.ts:178-189 | all-50 traits with no answers pick the nurturing pup, the first entry with two medium bands |
| Archetypes.ShibariHitsOnlyTheArtist | src/services/characterGenerator8D.ts:509-514 | `bdsm.bondage.shibari` hits a keyword of the submissive artist (Shibari) and of no other entry |
| Archetypes.ShibariNeutralDetect | src/services/characterGenerator8D.ts:480-523 | at neutral traits that tag scores the artist 0 + 10, the only entry above its band baseline, so the artist wins |
| Archetypes.ShibariIsSubmissiveArtist | src/services/characterGenerator8D.ts:480-523 | the single shibari tag gives neutral traits and the submissive artist |
| CharacterService.Generate | character/character.ts:55-123 | fails with the missing-fields message exactly when user id or user name is empty or the tag list is missing or empty; otherwise passes tags and lifestyle through, traits in range, must and nice lists sharing out the tags, compatibility 85, long description = archetype description |
| CharacterService.MergeIsIdempotent | character/character.ts:72-78 | merging the same overrides into an already merged slider set changes nothing |
| CharacterService.MergeAdjustments | character/character.ts:72-78 | each slider is the override when given and the derived value otherwise |
| CharacterService.SlidersAreOverrideOrDerived | character/character.ts:72-78 | in the generated record each slider is the override or the derived value, and all lie in [0, 100] when the overrides do |
| CharacterService.DerivedZeroIsKept | character/character.ts:73-77 | with `??` a derived slider of 0 stays 0 |
| CharacterService.SummaryListsFullIds | character/character.ts:81-85 | must-haves and nice-to-haves are the full tag ids in request order, together every tag id once |
| CharacterService.ArchetypeIsDetermined | character/character.ts:113-118 | name, description and keywords copy the `determineArchetype` result; the short bio is "user - name" |
| CharacterService.NeutralLabels | character/character.ts:88-94 | all-50 traits are labelled Ambivert, Balanced, Flexible, Balanced, Stable |
| Profiles.LabelBands | character/character.ts:89-93 | with distinct labels and non-overlapping bands, each label is given exactly on its band: above the upper threshold, below the lower one, in between |
| Profiles.LabelMonotone | character/character.ts:89-93 | a larger trait value never receives a lower label |
| Profiles.MustAndNicePartition | character/character.ts:81-85 | the must and nice id lists have lengths summing to the tag count and together hold every tag id once |
| Generator8D.Summary | src/services/characterGenerator8D.ts:643-651 | totalTags is the tag count, must and nice entries together number the tags, and no entry contains a dot |
| Generator8D.SegmentsAreSuffixes | src/services/characterGenerator8D.ts:645-650 | each entry is the last dotted segment of its tag id: a dot-free suffix, the whole id when it has no dot |
| Generator8D.OrFiftyIdempotent | src/services/characterGenerator8D.ts:694-700 | `x \|\| 50` never yields 0, so applying it twice changes nothing |
| Generator8D.DefaultsAgreeExceptZero | src/services/characterGenerator8D.ts:694-700 | without an override, this `\|\| 50` and the `?? 50` of character/character.ts report the same slider exactly when the derived value is not 0 |
| Generator8D.OrFiftyAll | src/services/characterGenerator8D.ts:694-700 | reported sliders stay in [0, 100] and are never 0 |
| Generator8D.ArchetypeBlock | src/services/characterGenerator8D.ts:679-684 | compatibility lies in [85, 100) and keywords are those of the detected archetype |
| Generator8D.Generate | src/services/characterGenerator8D.ts:619-706 | the record's traits, summary, archetype block, keywords and sliders are those of the parts above, with tags and lifestyle passed through and no long description |
| Generator8D.DerivedZeroBecomesFifty | src/services/characterGenerator8D.ts:694-700 | a derived slider of 0 is reported as 50 |
| Generator8D.NonZeroSlidersKept | src/services/characterGenerator8D.ts:694-700 | every non-zero derived slider is reported unchanged |
| Generator8D.FiveFearsReportFifty | src/services/characterGenerator8D.ts:256-262 | five `psychological.emotions.fear` tags at intensity 5 derive publicness 0, which is reported as 50 |
| Generator8D.ShortBioReportsCount | src/services/characterGenerator8D.ts:686-688 | the short bio is "name (n Fetische, extro/introvertiert)" and the decimal count in it parses back to the tag count |
| Generator8D.NeutralLabels | src/services/characterGenerator8D.ts:654-674 | all-50 traits are labelled Ambivertiert, Traditionell, Spontan, Direkt, Stabil |
| Generator8D.LabelsAgreeOnExtremes | src/services/characterGenerator8D.ts:654-674 | wherever the English labels of character/character.ts name an extreme, the German labels name the same extreme, for all five traits |
| Generator8D.DescriptionMustHaves | src/services/characterGenerator8D.ts:542 | reading the summary of an empty record fails; with a summary it yields the first min(3, n) must-haves |
| Generator8D.GenerateAsWritten | src/services/characterGenerator8D.ts:688-691 | as written, generation always fails, because the description is built from an empty record |
| Generator8D.DescriptionReadsTheSummary | src/services/characterGenerator8D.ts:536-545 | given the record's own summary the description step succeeds with its first three must-haves |
| Matching.FetishOverlap | matching/matching.ts:169-193 | the score lies in [0, 100], and is 0 when either list is empty |
| Matching.MustScore | matching/matching.ts:182-190 | the must term lies in [0, 40] |
| Matching.ExactScore | matching/matching.ts:176-189 | the exact term lies in [0, 60] |
| Matching.IdenticalMustsScoreFull | matching/matching.ts:175-192 | a non-empty list of must-haves only scores 100 against itself |
| Matching.SelfWithoutMustsScores80 | matching/matching.ts:175-192 | a non-empty list without must-haves scores 60 + 20 = 80 against itself |
| Matching.DisjointWithMustScoresZero | matching/matching.ts:175-192 | lists sharing no id score 0 once either side has a must-have |
| Matching.Asymmetric | matching/matching.ts:182-190 | only the first side's must-haves count: [x must] against [x nice, y must] scores 70, the reverse 30 |
| Matching.PersonalityCompat | matching/matching.ts:198-214 | the score lies in [0, 100], and is 100 exactly for identical traits |
| Matching.PersonalitySymmetric | matching/matching.ts:198-214 | personality compatibility is symmetric |
| Matching.PersonalityMonotone | matching/matching.ts:198-214 | a larger total trait gap never scores higher |
| Matching.Ratio | matching/matching.ts:245 | matches/total·100 lies in [0, 100], is 50 when nothing was compared, 100 exactly when all compared fields agree, 0 exactly when none do |
| Matching.LifestyleAlignment | matching/matching.ts:219-246 | lies in [0, 100], and is 50 when no field is answered on both sides |
| Matching.ValuesAlignment | matching/matching.ts:251-270 | lies in [0, 100], and is 50 when no field is answered on both sides |
| Matching.ModsOverlap | matching/matching.ts:293-304 | the body-modification fraction lies in [0, 1] and exists exactly when both lists are given and one is non-empty |
| Matching.AestheticHarmony | matching/matching.ts:275-307 | lies in [0, 100], and is 50 when nothing is compared |
| Matching.AlignmentSymmetric | matching/matching.ts:219-270 | swapping the two characters changes neither the lifestyle nor the values score, nor the compared and agreeing counts of the aesthetic fields |
| Matching.AestheticSymmetric | matching/matching.ts:275-307 | swapping the two characters changes neither the body-modification fraction nor the aesthetic score |
| Matching.SelfAlignment | matching/matching.ts:219-270 | a questionnaire against itself scores 100 when anything is compared, 50 otherwise |
| Matching.SwapKeepsCounts | matching/matching.ts:226-243 | swapping the answer pairs keeps the compared and agreeing counts |
| Matching.WeightsSumToOne | matching/matching.ts:92-98 | the weights 0.40, 0.15, 0.20, 0.15, 0.10 sum to 1 |
| Matching.Overall | matching/matching.ts:100-105 | the weighted sum lies in [0, 100] when every sub-score does, and equals the common value when all agree |
| Matching.OverallMonotone | matching/matching.ts:100-105 | raising any sub-score never lowers the overall score |
| Matching.RoundedOverall | matching/matching.ts:108 | rounding to two decimals moves the score by at most half a hundredth |
| Matching.LevelOf | matching/matching.ts:127-142 | Perfect exactly from 85, Poor exactly below 40 |
| Matching.LevelThresholds | matching/matching.ts:127-142 | Excellent exactly in [70, 85), Good in [55, 70), Okay in [40, 55) |
| Matching.LevelMonotone | matching/matching.ts:127-142 | the level never drops as the unrounded overall score grows |
| Matching.Calculate | matching/matching.ts:58-160 | the result carries the sub-scores, an overall that is their weighted sum rounded to two decimals and lies in [0, 100], the level of the unrounded overall, its recommendation, and breakdown weights summing to 100 |
| Matching.BreakdownMatchesWeights | matching/matching.ts:114-120 | each breakdown entry carries its sub-score and the percentage of its weight |
| MatchingEngine.FetishOverlap | src/services/matchingEngine.ts:41-92 | the score lies in [0, 100], and is 0 when either list is empty |
| MatchingEngine.MustTerm | src/services/matchingEngine.ts:86-89 | the must term is 0 unless both sides have must-haves |
| MatchingEngine.ExactTerm | src/services/matchingEngine.ts:50-84 | the exact term lies in [0, 60] |
| MatchingEngine.CategoryPairs | src/services/matchingEngine.ts:58-68 | the count of id pairs sharing their first two dotted segments is at most the product of the two list lengths |
| MatchingEngine.CategoryTermExceedsWeight | src/services/matchingEngine.ts:58-91 | two ids against two others of one category give four pairs and a category term of 50, twice its nominal 25 |
| MatchingEngine.WeightedGap | src/services/matchingEngine.ts:108-124 | the weighted trait gap is non-negative and 0 exactly for identical traits |
| MatchingEngine.PersonalityCompat | src/services/matchingEngine.ts:98-129 | max(0, 100 - 1.5·average) lies in [0, 100], and is 100 exactly for identical traits |
| MatchingEngine.PersonalitySymmetric | src/services/matchingEngine.ts:98-129 | the personality score is symmetric |
| MatchingEngine.SimilarityWeighsMore | src/services/matchingEngine.ts:108-119 | a gap in conscientiousness costs more than the same gap in extraversion |
| MatchingEngine.SemanticDistance | src/services/matchingEngine.ts:359-371 | the distance lies in [0, 1] and is 0 exactly for equal answers; for different answers it is 0.5 when one is empty or the pair is not in the table, and the table's value otherwise |
| MatchingEngine.SemanticDistanceSymmetric | src/services/matchingEngine.ts:362-370 | the political distance table is symmetric, unknown pairs included |
| MatchingEngine.StyleCompatibility | src/services/matchingEngine.ts:376-385 | the factor lies in [0, 1], and is 0.4 off the table |
| MatchingEngine.StyleCompatibilityAsymmetric | src/services/matchingEngine.ts:377-384 | goth rates alternative 0.7 but alternative rates goth 0.4 |
| MatchingEngine.LifestylePoints | src/services/matchingEngine.ts:134-199 | the lifestyle points lie in [0, 60] |
| MatchingEngine.LifestyleAsWritten | src/services/matchingEngine.ts:200 | the points over a fixed 55 lie in [0, 60/55·100] |
| MatchingEngine.EmptyLifestylesScore | src/services/matchingEngine.ts:144-181 | two empty questionnaires score 27/55·100, since missing housing and rhythm answers compare equal |
| MatchingEngine.LifestyleExceedsHundred | src/services/matchingEngine.ts:158-200 | a questionnaire that agrees with itself everywhere scores 60/55·100, above 100 |
| MatchingEngine.LifestyleAlignment | src/services/matchingEngine.ts:134-201 | the points over the attainable 60 lie in [0, 100], and reach 100 exactly when every field earns its full points |
| MatchingEngine.LifestyleRescaled | src/services/matchingEngine.ts:134-201 | the corrected score is the as-written one times 55/60 |
| MatchingEngine.ChildrenPoints | src/services/matchingEngine.ts:227-233 | the children term is 50 or 0; 50 exactly when both answers are given and equal |
| MatchingEngine.ValuesPoints | src/services/matchingEngine.ts:206-252 | the values points lie in [0, 120] |
| MatchingEngine.ValuesAsWritten | src/services/matchingEngine.ts:253 | the points over a fixed 100 lie in [0, 120] |
| MatchingEngine.ValuesExceedHundred | src/services/matchingEngine.ts:213-253 | a questionnaire that agrees with itself everywhere scores 120 |
| MatchingEngine.ValuesAlignment | src/services/matchingEngine.ts:206-254 | the points over the attainable 120 lie in [0, 100], and reach 100 exactly when every field earns its full points |
| MatchingEngine.ValuesRescaled | src/services/matchingEngine.ts:206-254 | the corrected score is the as-written one times 100/120 |
| MatchingEngine.ModsPoints | src/services/matchingEngine.ts:280-297 | the body-modification term lies in [0, 12] |
| MatchingEngine.AestheticHarmony | src/services/matchingEngine.ts:259-310 | each term stays within its factor, so the score lies in [0, 100] |
| MatchingEngine.ReportOf | src/services/matchingEngine.ts:327-352 | for any sub-scores: the overall is the rounded weighted sum of the unrounded sub-scores, each field is within one half of its sub-score and in [0, 100] when that is, the breakdown weights sum to 1; the overall lies in [0, 100] when every sub-score does |
| MatchingEngine.SubScoresAsWritten | src/services/matchingEngine.ts:319-325 | the source's sub-scores: fetish, personality and aesthetic in [0, 100], lifestyle up to 60/55·100 and values up to 120, each the corrected sub-score times 60/55 and 120/100 respectively |
| MatchingEngine.CalculateMatchAsWritten | src/services/matchingEngine.ts:315-354 | `calculateMatch` as written: overall in [0, 105], lifestyle in [0, 109], values in [0, 120], the other fields in [0, 100] |
| MatchingEngine.OverallExceedsHundred | src/services/matchingEngine.ts:315-345 | two identical characters with two must-haves of one category and every field answered are reported with overall 105, lifestyle 109 and values 120; the corrected report gives overall 100 |
| MatchingEngine.CalculateMatch | src/services/matchingEngine.ts:315-354 | `calculateMatch` with the corrected lifestyle and values scores: every reported field, the overall included, lies in [0, 100] |
| MatchingEngine.RoundingIsPerField | src/services/matchingEngine.ts:340-345 | a fetish score of 1.3 alone reports overall 1, though its rounded field weighted by 0.4 rounds to 0 |
| MatchingEngine.EqualSubScores | src/services/matchingEngine.ts:327-340 | the weights sum to 1, so equal sub-scores report that score rounded |
| Taxonomy.TotalTags | docs/archive/encore-modules/taxonomy/taxonomy.ts:58-66 | the recursive tag count over all top-level categories equals the number of extracted tags |
| Taxonomy.ExtractCount | docs/archive/encore-modules/taxonomy/taxonomy.ts:88-106 | extracting a category emits exactly `countTags` of it |
| Taxonomy.ExtractPaths | docs/archive/encore-modules/taxonomy/taxonomy.ts:88-106 | every extracted tag's category is the path it was extracted under, or that path extended by "." and sub-category ids |
| Taxonomy.FilterQuery | docs/archive/encore-modules/taxonomy/taxonomy.ts:112-117 | keeps exactly the tags whose lower-cased name, id or description contains the query |
| Taxonomy.FilterCategory | docs/archive/encore-modules/taxonomy/taxonomy.ts:120-122 | keeps exactly the tags whose category starts with the given prefix |
| Taxonomy.SliceTo | docs/archive/encore-modules/taxonomy/taxonomy.ts:125 | `slice(0, end)` is a prefix of length min(end, n), or n + end for a negative end |
| Taxonomy.Search | docs/archive/encore-modules/taxonomy/taxonomy.ts:80-131 | totalFound counts every selected tag; the returned tags are the first min(limit, n) of them, 50 by default; each is a taxonomy tag matching the query |
| Taxonomy.EmptyQueryFindsAll | docs/archive/encore-modules/taxonomy/taxonomy.ts:58-130 | an empty query without category finds as many tags as `getTaxonomy` counts |
| Taxonomy.FirstWithId | docs/archive/encore-modules/taxonomy/taxonomy.ts:165 | `find`: the first position with that id, none exactly when no tag has it |
| Taxonomy.GetTag | docs/archive/encore-modules/taxonomy/taxonomy.ts:137-169 | the first pre-order tag with that id, or none exactly when no tag has it |
| Taxonomy.FindCategory | docs/archive/encore-modules/taxonomy/taxonomy.ts:180-190 | none for an empty path; a found node has the last segment as id |
| Taxonomy.FindCategoryCompose | docs/archive/encore-modules/taxonomy/taxonomy.ts:180-190 | following p + q is following p, then q below the node reached |
| Taxonomy.GetCategory | docs/archive/encore-modules/taxonomy/taxonomy.ts:174-224 | no node gives no tags; a found node gives exactly `countTags` of it, each under the requested id |
| Taxonomy.TopLevelTagsAreSearchable | docs/archive/encore-modules/taxonomy/taxonomy.ts:193-221 | a dot-free top-level id that no earlier category shares finds its category, and every tag listed for it is one the search extracts |
| TaxonomyRoutes.CountIsEmptySearch | src/routes/taxonomy.routes.ts:48-68 | the item count equals the number of hits of the search walk for a query every item matches |
| TaxonomyRoutes.HitPaths | src/routes/taxonomy.routes.ts:127-159 | every hit's path is the path searched under, or that path extended by "/" and keys |
| TaxonomyRoutes.HitsMatch | src/routes/taxonomy.routes.ts:134-137 | every hit's lower-cased label or description contains the query |
| TaxonomyRoutes.SearchInTakes | src/routes/taxonomy.routes.ts:127-160 | the search with its early returns collects exactly the first `limit` hits of the unlimited walk |
| TaxonomyRoutes.Limit | src/routes/taxonomy.routes.ts:115 | `parseInt(limit) \|\| 50`: missing, unparsable and 0 become 50, anything else is kept |
| TaxonomyRoutes.HandleSearch | src/routes/taxonomy.routes.ts:110-174 | rejected exactly when the query is shorter than two characters; otherwise the results are the first `limit` hits, count is their number, and hasMore holds exactly when they fill the limit |
| TaxonomyRoutes.ResultsMatch | src/routes/taxonomy.routes.ts:127-159 | every result contains the query in label or description, and its path starts at the root |
| TaxonomyRoutes.HasMoreWithoutMore | src/routes/taxonomy.routes.ts:171 | hasMore is set when exactly `limit` hits exist and there is no more |
| TaxonomyRoutes.NegativeLimitFindsNothing | src/routes/taxonomy.routes.ts:115-128 | a negative limit returns no result and hasMore false |

## Left out

- HTTP, Express and Encore plumbing (routers, status codes other than the search's 400 reply, logging, rate limiting, timing) is left out: it is I/O around the computations.
- Traits.CalculateFromTags: intensities, and with them the trait scores, are integers. The request schema (`z.number().min(1).max(5)`) and the `intensity: number` field also admit fractional intensities: 2.25 on one matching tag gives a trait of 53.5. Fractional intensities are not modelled, so every contract about traits, sliders and archetypes speaks of integer intensities only.
- The request schemas are not modelled as code. They enter only as preconditions: intensities 1..5 (`Traits.ValidIntensities`) and overrides in [0, 100] (`CharacterService.OverridesInRange`).
- Persistence, the frontend, the scripts, the health checks and the middleware are not part of this model.
- The second level ladder in src/server.ts is not part of this model. `Matching.LevelOf` is the only ladder.
- `DescriptionGenerator` prose is left out. It builds free German text, and the call as written cannot complete anyway (see Findings). `Generator8D.DescriptionMustHaves` models only the field access that fails.
- `Date.now()`, `new Date().toISOString()` and `Math.random()` are parameters: clocks and randomness are outside the model.
- Floating point is modelled as exact `real` arithmetic. IEEE rounding error in the weighted sums is not modelled.
- `toLowerCase` is ASCII-only. Non-ASCII letters keep their case.
- `parseInt` is not modelled. `TaxonomyRoutes.Limit` takes its result as `Option<int>`, with `None` for NaN.
- A limit that is not an integer is not modelled, in either search.
- An Express query parameter given as an array is not modelled.
- The taxonomy JSON contents are not modelled. Every taxonomy operation takes the tree as a parameter.
- `for...in` key order is taken as the list order of the modelled children.
- Lookups whose key is an `Object.prototype` member (for example `semanticMap["constructor"]`) are not modelled. The tables treat such keys as unknown.
- The `getAdjustments`/`updateAdjustments` stubs of character/character.ts hold no logic and are left out.
- `Matching.Recommendation`: the recommendation texts are written with their intended emoji. The byte-garbled literals of matching/matching.ts are not reproduced.
- `MatchingEngine.ExactTerm`, `MatchingEngine.CategoryTerm`: the category term is not bounded by its nominal 25. Only the final cap at 100 bounds the fetish score, as in the source.

## Findings

| source | as written | input that shows it | evidently intended | confidence | as-written member | corrected member |
|---|---|---|---|---|---|---|
| src/services/characterGenerator8D.ts:688-691 | `longDescription` is generated from `{}` cast to a character. The description reads `character.tagsSummary.mustHaves` at line 542, which throws on `undefined`, so `generate` never returns | any call of `CharacterGenerator8D.generate` | describe the record being built, whose summary holds the must-haves | high (not executed) | Generator8D.GenerateAsWritten | Generator8D.DescriptionReadsTheSummary |
| src/services/matchingEngine.ts:158-200 | career adds up to 15 against a factor of 10; the points reach 60 but are divided by 55 | two identical questionnaires with career "business" and equal housing, rhythm, availability, diet and fitness: 60/55·100 ≈ 109.1 | a score in [0, 100], dividing by the attainable 60 | high (not executed) | MatchingEngine.LifestyleExceedsHundred | MatchingEngine.LifestyleAlignment |
| src/services/matchingEngine.ts:227-253 | equal wishes for children add max(0, 30 + 20) = 50 against a factor of 30; the points reach 120 but are divided by 100 | two identical questionnaires with politics, spirituality, wish for children, environment and relationship structure all answered: 120 | a score in [0, 100], dividing by the attainable 120 | high (not executed) | MatchingEngine.ValuesExceedHundred | MatchingEngine.ValuesAlignment |
| src/services/matchingEngine.ts:315-345 | the overall combines the two overshooting sub-scores with weights summing to 1, so the reported overall, documented as 0-100 at line 10, reaches 105 | two identical characters with must-haves `c.d.a` and `c.d.b` and every lifestyle, values and aesthetic field answered: overall 105, lifestyle 109, values 120 | every reported field in [0, 100], from the corrected sub-scores | high (not executed) | MatchingEngine.OverallExceedsHundred | MatchingEngine.CalculateMatch |

The 8D generator replaces a derived slider of exactly 0 with 50 (`x || 50`). Character/character.ts keeps it (`??`). This is modelled as written (`Generator8D.DerivedZeroBecomesFifty`, `Generator8D.FiveFearsReportFifty`) and is not listed as a finding. In the 8D generator it is masked anyway, because the description crash above stops the call first.
