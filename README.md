# Resume analyser: a Dafny model of its scoring and feedback pipeline

This project models the four engines behind the resume analyser and proves what each one
promises:

- **Feature extractor** (`src/text_analyzer.py`): skill matching against a skills database,
  keyword selection, project-sentence detection, contact details, section detection,
  readability arithmetic, the blank-input error result, and the job-keyword comparison.
- **Rating engine** (`src/rating_system.py`): seven criterion curves, the weighted overall
  score and its category, the score breakdown sorted by contribution, and the list of
  improvement priorities.
- **Suggestion engine** (`src/suggestions.py`): the templated advice generators, the three
  priority tiers with their deduplication, the action plan, and the report.
- **Summary generator** (`src/summary_generator.py`): role guessing, the experience-level
  estimate, top skills and specialisations, education level, project phrasing, template
  filling, the two-sentence shaping, alternatives, and the error short-circuit.

Modules:

| module | file | what it holds |
|---|---|---|
| `Common` | `common.dfy` | `Option`, Python's `str` methods on ASCII (`lower`, `title`, `capitalize`, `split`, `strip`, `in`, `split(sep)`, `join`), `round`, filters and dictionaries as ordered association lists |
| `Random` | `random.dfy` | `random.choice` and `random.sample` as functions of a drawn-number stream, so every property holds for every draw |
| `Sorting` | `sorting.dfy` | Python's stable descending sort by a real key (`list.sort(reverse=True)`, `sorted`, `most_common`) |
| `Analyzer` | `analyzer.dfy` | `TextAnalyzer` |
| `Rating` | `rating.dfy` | `ResumeRatingSystem` |
| `Suggestions` | `suggestions.dfy` | `SuggestionsSystem` |
| `SummaryGenerator` | `summary.dfy` | `SummaryGenerator` |

Modelling decisions:

- **Loops as methods.** Each loop that appends to a list or accumulates a score is a
  `method` with a `while`/`for` loop. It is proved equal to a specification function, and
  the properties are lemmas about that function.
- **Dictionaries.**
  - Dictionaries whose order matters (the skills found, the template tables, the role
    table) are association lists without repeated keys.
  - The sections dictionary is a `map<Section, bool>` read in the order of the sections
    table.
  - A missing key of the readability dictionary is `None`.
- **Tables as parameters.** The tables each class builds in `__init__` are values
  (`SuggestionsSystem`, `SummaryTables`). Constants (`DefaultSystem`, `DefaultTables`) hold
  the source's literals, and lemmas (`DefaultSystemValid`, `DefaultTablesValid`) prove that
  every list `random.choice` draws from is non-empty.
- **Library and regex results as inputs.** What NLTK, TextBlob and the regular expressions
  report about a text is given as input (`Analyzer.Nlp`, `ContactMatches`, the year
  matches of `SummaryInput`).
- **Randomness as streams.** Every random draw and every set-iteration order comes from a
  stream `nat -> nat`, and all properties are stated for every stream.
- **Scores** are `real`. `round(x, 1)` and `round(x, 2)` are decimal rounding half up.

## Model

| member | source | states |
|---|---|---|
| Analyzer.Categories | src/text_analyzer.py:132-139 | every database category in order, with exactly the skills of that category the search finds, in database order |
| Analyzer.NonEmpty | src/text_analyzer.py:141-142 | the comprehension keeps exactly the categories with at least one skill |
| Analyzer.ExtractSkills | src/text_analyzer.py:125-144 | the nested loops build the skills dict that SkillsFound specifies |
| Analyzer.MatchSkills | src/text_analyzer.py:135-139 | the inner loop keeps, in order, the skills of one category the search finds |
| Analyzer.NonEmptyIsDict | src/text_analyzer.py:142 | dropping categories keeps the keys distinct |
| Analyzer.SkillsFoundSound | src/text_analyzer.py:132-144 | every returned category is a database category, is non-empty, and holds exactly that category's skills found, in database order |
| Analyzer.SkillsFoundComplete | src/text_analyzer.py:132-144 | every database category with a skill found is returned |
| Analyzer.ExtractSkillsSpec | src/text_analyzer.py:125-144 | no returned category is empty; each holds exactly its skills found; every category with a skill found is returned; keys stay distinct |
| Analyzer.FilteredTokens | src/text_analyzer.py:154-157 | a token is kept exactly when it is alphabetic, longer than 2 characters and not a stopword |
| Analyzer.TaggedFrom | src/text_analyzer.py:161-165 | the NN/JJ-tagged words are among the filtered tokens |
| Analyzer.Candidates | src/text_analyzer.py:159-168 | with or without a tagger, every candidate is a kept token |
| Analyzer.TopKeywordsCutoff | src/text_analyzer.py:171-172 | a candidate left out of the top list means the list has 20 words, each at least as frequent as the one left out |
| Analyzer.TopKeywordsLength | src/text_analyzer.py:172 | the top list has 20 words, or every distinct candidate when there are at most 20 |
| Analyzer.TopKeywordsDistinct | src/text_analyzer.py:171-172 | the top list has no repeats and holds only candidates |
| Analyzer.TopKeywordsOrdered | src/text_analyzer.py:171-172 | the top list is in non-increasing frequency |
| Analyzer.ExtractKeywordsSpec | src/text_analyzer.py:146-174 | at most 20 distinct keywords, each an alphabetic non-stopword longer than 2, in non-increasing frequency, with no more frequent candidate left out |
| Analyzer.ExtractKeywords | src/text_analyzer.py:146-174 | specified by ExtractKeywordsSpec and the TopKeywords lemmas |
| Analyzer.DetectProjects | src/text_analyzer.py:176-200 | the loop returns the first five stripped project sentences |
| Analyzer.ProjectSentencesAppend | src/text_analyzer.py:191-198 | projects keep document order: earlier sentences give earlier projects |
| Analyzer.ProjectSentencesSpec | src/text_analyzer.py:191-198 | each project is a stripped sentence naming an indicator, with more than 8 words |
| Analyzer.DetectProjectsSpec | src/text_analyzer.py:186-200 | at most 5 projects, each a stripped indicator sentence of more than 8 words |
| Analyzer.AnalyzeContactInfo | src/text_analyzer.py:202-232 | a field is present exactly when its pattern matched, and then holds the first match |
| Analyzer.SectionListed | src/text_analyzer.py:90-99 | the sections table lists every section |
| Analyzer.DetectSections | src/text_analyzer.py:234-246 | all 8 sections are keys; a section is true exactly when one of its keywords occurs in the lower-cased text |
| Analyzer.ContainsPrefix | src/text_analyzer.py:242-244 | a text containing a keyword contains every prefix of it |
| Analyzer.WorkSamplesMeansExperience | src/text_analyzer.py:93-96 | a text with "work samples" marks both projects and experience |
| Analyzer.SectionsPresent | src/text_analyzer.py:318 | the count of present sections is at most 8 |
| Analyzer.CalculateReadability | src/text_analyzer.py:248-278 | no sentences or no words give score 0, average 0 and the word count, with no sentence count or complexity ratio; otherwise the score is in [1, 10], the average is non-negative and the ratio is in [0, 1] |
| Analyzer.AnalyzeResume | src/text_analyzer.py:280-321 | blank or whitespace-only text gives the fixed error with everything empty; otherwise each part is its extractor's result, and the stats count all skills, categories, projects and present sections |
| Analyzer.Recommendations | src/text_analyzer.py:355-357 | one recommendation per missing keyword among the first five |
| Analyzer.CompareWithJob | src/text_analyzer.py:323-358 | an unknown title gives the not-found error with no missing keywords and score 0; otherwise the loop splits the required keywords into matched and missing, with the percentage and recommendations |
| Analyzer.MatchPartition | src/text_analyzer.py:341-345 | matched and missing partition the required keywords as a multiset, each side holding only keywords that match or do not |
| Analyzer.MatchCounts | src/text_analyzer.py:341-345 | the two sides together are the required keywords as a multiset |
| Analyzer.MatchSides | src/text_analyzer.py:341-345 | matched keywords occur in the keyword text and missing ones do not |
| Analyzer.MatchScoreRange | src/text_analyzer.py:348-354 | the match score lies in [0, 100] and is 100 when every keyword matched |
| Analyzer.RecommendationsSpec | src/text_analyzer.py:355-357 | at most five recommendations, the i-th naming the i-th missing keyword |
| Analyzer.SubstringMatchQuirk | src/text_analyzer.py:335-342 | matching is by substring of the joined keywords, so "Java" counts as found in "javascript" |
| Rating.Weight | src/rating_system.py:17-25 | every weight lies strictly between 0 and 1 |
| Rating.WeightsSumToOne | src/rating_system.py:17-25 | the seven weights add up to 1.0 |
| Rating.DiversityScore | src/rating_system.py:49-59 | the curve takes only 0, 4, 5.5, 7, 8.5 and 10; it is 10 exactly from 5 categories and 0 exactly for none |
| Rating.ScoreSkillsDiversity | src/rating_system.py:40-59 | the diversity score lies in [0, 10] |
| Rating.DiversityMonotone | src/rating_system.py:52-59 | more categories never lower the diversity score |
| Rating.QuantityScore | src/rating_system.py:68-79 | the quantity curve lies in [0, 10] |
| Rating.ScoreSkillsQuantity | src/rating_system.py:61-79 | the quantity score lies in [0, 10] |
| Rating.QuantityMonotone | src/rating_system.py:70-79 | more skills never lower the score; it is 0 at none, 5 at 5 and 10 at 15 |
| Rating.ScoreContactCompleteness | src/rating_system.py:81-104 | the two loops compute the contact score |
| Rating.ContactPointsPair | src/rating_system.py:95-102 | a two-field loop adds its points once per present field |
| Rating.ContactScoreClosedForm | src/rating_system.py:85-104 | 3.5 each for email and phone and 1.5 each for LinkedIn and GitHub, within [0, 10] |
| Rating.ContactEmailAndPhone | src/rating_system.py:89-104 | email and phone alone give exactly 7.0 |
| Rating.ScoreSectionsCompleteness | src/rating_system.py:106-137 | the three loops compute the sections score |
| Rating.SectionPointsPair | src/rating_system.py:128-135 | a two-section loop adds its points once per present section |
| Rating.SectionPointsTriple | src/rating_system.py:123-125 | the essential loop adds 2 once per present essential section |
| Rating.SectionsScoreClosedForm | src/rating_system.py:110-137 | 2 per essential, 1.5 per important and 0.5 per bonus section present; the contact section counts for nothing; within [0, 10] |
| Rating.LengthPart | src/rating_system.py:150-158 | the sentence-length part is 5 up to 15 words, 3 from 25 on, and within [3, 5] between |
| Rating.LengthPartDecays | src/rating_system.py:150-158 | longer sentences never raise the part, and between 15 and 25 words it falls linearly by 0.2 per word, from 5 to 3 |
| Rating.ComplexityPart | src/rating_system.py:162-169 | the complexity part is 5 for ratios in [0.2, 0.4], never above 5 for a non-negative ratio, and within [1, 5] for ratios in [0, 1] |
| Rating.ScoreReadability | src/rating_system.py:139-171 | the readability score is clamped to [0, 10] |
| Rating.ReadabilityDefaults | src/rating_system.py:143-147 | an empty dict scores 5.0; the zero-count dict, which has average 0 and no ratio, scores 10.0 |
| Rating.ReadabilityInRange | src/rating_system.py:146-171 | for a ratio within [0, 1] the score is the plain sum of the two parts, at least 4 |
| Rating.ProjectCountPart | src/rating_system.py:183-188 | the count part lies in [0, 5] |
| Rating.DescriptionPoints | src/rating_system.py:193-199 | one description earns between 0.5 and 1.67 points |
| Rating.QualityPointsTriple | src/rating_system.py:192-199 | three descriptions earn the sum of their points |
| Rating.QualityPoints | src/rating_system.py:191-199 | n descriptions earn between 0.5 n and 1.67 n points |
| Rating.ProjectScore | src/rating_system.py:177-201 | the project score lies in [0, 10] and is at least 3.5 when there is a project |
| Rating.ScoreProjectQuality | src/rating_system.py:173-201 | the loop over the first three projects computes the project score |
| Rating.ProjectScoreCapped | src/rating_system.py:192-201 | three substantial descriptions add up to 10.01, and the cap gives 10.0 |
| Rating.ContentLengthScore | src/rating_system.py:203-221 | the length score lies in [0, 10] |
| Rating.ContentLengthValues | src/rating_system.py:207-221 | 150 words give 7.0, 400 give 10.0, 800 give 7.0; above 800 gives 5.0, below 150 less than 4.0, and 150 to 800 at least 7.0 |
| Rating.CriterionScore | src/rating_system.py:234-251 | each criterion's score lies in [0, 10] |
| Rating.DetailedScores | src/rating_system.py:243-251 | the seven criteria in table order, each with its score |
| Rating.WeightedSumOfScores | src/rating_system.py:254-257 | the weighted sum written out over the seven criteria and their weights |
| Rating.WeightedSumBounds | src/rating_system.py:254-257 | scores in [0, 10] give a weighted sum in [0, 10 times the total weight] |
| Rating.Rounded | src/rating_system.py:283 | the reported scores are the scores rounded to one decimal, in order |
| Rating.CategoryMonotone | src/rating_system.py:263-277 | a higher score never earns a lower category |
| Rating.CategoryOf | src/rating_system.py:263-277 | specified by CategoryMonotone and, through RateSpec, by the thresholds 8.5, 7.0, 5.5 and 3.0 |
| Rating.Entries | src/rating_system.py:304-311 | one breakdown entry per criterion, in order |
| Rating.GenerateScoreBreakdown | src/rating_system.py:288-316 | the loop, then the stable sort by contribution, build the breakdown |
| Rating.BreakdownSpec | src/rating_system.py:304-316 | the breakdown is a permutation of the entries, in non-increasing contribution, and stable on ties |
| Rating.Names | src/rating_system.py:328 | one title-cased name per criterion, in order |
| Rating.IdentifyImprovementPriorities | src/rating_system.py:318-330 | the names of the criteria below 7.0 among the three lowest; PriorityAscending shows they come lowest score first |
| Rating.NamePriorities | src/rating_system.py:325-328 | the loop names the criteria scoring below 7.0 |
| Rating.PriorityBounded | src/rating_system.py:323-330 | at most three priorities, each a criterion scoring below 7.0 |
| Rating.LowestFirstOrdered | src/rating_system.py:323 | the three lowest come in ascending score order |
| Rating.PriorityAscending | src/rating_system.py:323-330 | the reported priorities, after dropping those at 7.0 or above, are still in ascending score order |
| Rating.PriorityLowest | src/rating_system.py:323-330 | a priority scores no higher than any criterion outside the three lowest |
| Rating.CalculateOverallScore | src/rating_system.py:223-286 | the method computes the rating that Rate specifies |
| Rating.RateSpec | src/rating_system.py:227-286 | an error gives 0.0, no scores and the same error; otherwise the score is the weighted sum rounded to one decimal, within [0, 10], labelled by the thresholds, with 7 breakdown entries and at most 3 priorities |
| Rating.Rate | src/rating_system.py:223-286 | specified by RateSpec; CalculateOverallScore computes it |
| Rating.IdealResume | src/rating_system.py:223-286 | a resume meeting every ideal rates 10.0, Excellent, with nothing to improve |
| Rating.IdealScores | src/rating_system.py:40-221 | such a resume scores 10.0 on every criterion |
| Rating.NoPriorities | src/rating_system.py:326-328 | when every criterion scores at least 7.0, there are no priorities |
| Rating.BareResume | src/rating_system.py:223-286 | no skills, sections or projects and under 150 words rate below 3.0, Poor, whatever the contact and readability |
| Rating.BareResumeSum | src/rating_system.py:254-257 | such a resume's weighted sum lies in [0, 2.9] |
| Sorting.SortDesc | src/rating_system.py:314 | sorting is a permutation |
| Sorting.InsertSorted | src/rating_system.py:314 | inserting into a sorted list keeps it sorted |
| Sorting.SortDescSorted | src/rating_system.py:314 | the sort is in non-increasing key order |
| Sorting.SortDescStable | src/rating_system.py:314 | the sort is stable: equal keys keep their relative order |
| Sorting.SortDescHead | src/rating_system.py:314 | an element whose key is at least every later key stays in front |
| Random.Choice | src/suggestions.py:127 | random.choice returns an element of the pool |
| Random.Sample | src/suggestions.py:234 | k elements, each drawn at most as often as it occurs in the pool; when the pool is shorter than k the model returns all of it where Python raises ValueError, a case SuggestionsSystem.Valid rules out at every call site |
| Random.SampleDistinct | src/suggestions.py:234-251 | a sample of distinct values has no repeats |
| Random.ShuffleIsPermutation | src/suggestions.py:310 | the order of a set's iteration is a permutation of its elements |
| Suggestions.DefaultSkillSuggestionsValid | src/suggestions.py:17-48 | the skill template table has distinct keys and no empty list |
| Suggestions.DefaultSectionSuggestionsValid | src/suggestions.py:50-81 | the section template table has no empty list and has summary and projects |
| Suggestions.DefaultSystemValid | src/suggestions.py:15-107 | the tables SuggestionsSystem() is built with meet what the generators draw from |
| Suggestions.SkillTips | src/suggestions.py:137-138 | a category's templates, or the one generic tip for an unknown category |
| Suggestions.MissingCategories | src/suggestions.py:121-123 | exactly the template categories absent from the skills found |
| Suggestions.GenerateSkillSuggestions | src/suggestions.py:109-141 | the generator builds the diversity advice followed by the quantity advice |
| Suggestions.AdviseDiversity | src/suggestions.py:117-128 | the diversity branch |
| Suggestions.AdviseQuantity | src/suggestions.py:131-139 | the quantity branch |
| Suggestions.AdviseThinCategories | src/suggestions.py:135-139 | the loop over the skill categories |
| Suggestions.AdviseMissingCategories | src/suggestions.py:126-128 | the loop over the chosen missing categories |
| Suggestions.ChosenMissingSpec | src/suggestions.py:123-126 | at most two missing categories are advised, none twice, each a template category absent from the skills |
| Suggestions.DiversityAdviceSpec | src/suggestions.py:117-128 | nothing at diversity 7.0 or more; otherwise the diversity message, then one message per chosen missing category with its drawn template |
| Suggestions.ThinAdviceSound | src/suggestions.py:135-139 | every quantity-loop message names a category holding fewer than three skills |
| Suggestions.ThinAdviceComplete | src/suggestions.py:135-139 | every category holding fewer than three skills is advised |
| Suggestions.GenerateSectionSuggestions | src/suggestions.py:143-170 | the missing, add and improve advice, in that order |
| Suggestions.AdviseMissingSections | src/suggestions.py:151-154 | the loop over the essential sections |
| Suggestions.AdviseAddSections | src/suggestions.py:157-161 | the loop over the important sections |
| Suggestions.AdviseImprovements | src/suggestions.py:165-168 | the loop over the sections table |
| Suggestions.ImproveEntry | src/suggestions.py:166-168 | the advice for one section of the table |
| Suggestions.MissingSectionsFirst | src/suggestions.py:151-154 | one "Missing" message per absent essential section, in the order experience, education, skills |
| Suggestions.ImproveSound | src/suggestions.py:164-168 | an "Improve" message only below 8.0, and only for a present section that has templates |
| Suggestions.ImproveComplete | src/suggestions.py:164-168 | below 8.0 every present section with templates gets its "Improve" message |
| Suggestions.GenerateContentSuggestions | src/suggestions.py:172-225 | length, readability, project and contact advice, in that order |
| Suggestions.AdviseLength | src/suggestions.py:180-185 | the length branch |
| Suggestions.AdviseReadability | src/suggestions.py:188-196 | the branch computes ReadabilityAdvice, which ReadabilityAdviceSpec describes |
| Suggestions.ReadabilityAdvice | src/suggestions.py:188-196 | specified by ReadabilityAdviceSpec |
| Suggestions.ReadabilityAdviceSpec | src/suggestions.py:188-196 | nothing at 7.0 or above; at most two messages; the long-sentences message exactly when the average sentence length exceeds 25 and the complex-words message exactly when the ratio exceeds 0.5, below 7.0; a missing value counts as 20 and 0.3, so the empty readability dict draws no advice |
| Suggestions.AdviseProjects | src/suggestions.py:199-209 | the project branch |
| Suggestions.AdviseContact | src/suggestions.py:212-223 | the contact branch |
| Suggestions.LengthAdviceSpec | src/suggestions.py:180-185 | length advice exactly when content_length is below 7.0 and the words number under 150 or over 800; at most one message |
| Suggestions.ContactAdviceSpec | src/suggestions.py:212-223 | contact advice exactly when the score is below 8.0 and email, phone or LinkedIn is missing; it lists only those; GitHub changes nothing |
| Suggestions.ProjectAdviceSpec | src/suggestions.py:199-209 | below 7.0: the no-projects message exactly when there are none, the few-projects message exactly when there are one or two, and the short-descriptions message exactly when a project has fewer than 10 words; at most two messages, and none at 7.0 or above |
| Suggestions.BriefResumeAdvised | src/suggestions.py:180-183 | generate_content_suggestions, given the rating's scores, always includes the too-brief message for a resume of fewer than 150 words; whether a tier of the report carries it depends on the priorities |
| Suggestions.RatedScore | src/suggestions.py:181 | the score a generator reads is the rated criterion's score rounded to one decimal |
| Suggestions.GenerateFormattingSuggestions | src/suggestions.py:227-238 | the formatting generator, which ignores the scores |
| Suggestions.AdviseFormatting | src/suggestions.py:235-236 | the loop over the sampled tips |
| Suggestions.FormattingSpec | src/suggestions.py:234-238 | three formatting messages, each for a tip of the table |
| Suggestions.EnhancementTips | src/suggestions.py:240-255 | exactly two tips; EnhancementTipsSpec states what they hold |
| Suggestions.EnhancementTipsSpec | src/suggestions.py:240-255 | the first tip is the action-verbs message over four verbs (all, when fewer are listed) and the second the metrics message over three examples (likewise), each drawn without replacement from its table |
| Suggestions.GenerateContentEnhancementTips | src/suggestions.py:240-255 | the method builds EnhancementTips: the verbs tip, then the metrics tip, as EnhancementTipsSpec describes |
| Suggestions.PriorityDispatch | src/suggestions.py:272-288 | the skills criteria select the skill generator, sections the section one, readability and length the content one; contact and projects select none |
| Suggestions.KeyDispatch | src/suggestions.py:273-285 | for a snake-case key, dispatching on its title-cased name is dispatching on the key |
| Suggestions.KeyWords | src/suggestions.py:273-285 | each criterion key is snake case and holds the word of its generator |
| Suggestions.GeneratorAdvice | src/suggestions.py:274-288 | a generator contributes at most two suggestions |
| Suggestions.CriticalFor | src/suggestions.py:272-288 | each priority adds at most two critical suggestions |
| Suggestions.GeneratePrioritySuggestions | src/suggestions.py:257-312 | the method builds the three tiers |
| Suggestions.UniqueSpec | src/suggestions.py:310 | deduplication leaves no repeats, exactly the non-blank suggestions, at most as many as before |
| Suggestions.UniqueIdempotent | src/suggestions.py:310 | deduplicating again changes nothing but the order |
| Suggestions.RawCriticalBound | src/suggestions.py:272-288 | the critical tier holds at most two suggestions per priority |
| Suggestions.VerbsTipEnhances | src/suggestions.py:301-306 | before deduplication the enhancement advice always holds both content enhancement tips, the action-verbs tip and the metrics tip, and at most four suggestions |
| Suggestions.TiersSpec | src/suggestions.py:257-312 | each tier has no repeats and no blank; at most 2 critical per priority, at most 4 important, 1 to 4 enhancement including the verbs tip |
| Suggestions.CriticalAtMostSix | src/suggestions.py:272-288 | from a rating, the critical tier holds at most six |
| Suggestions.AdviseCritical | src/suggestions.py:272-288 | the loop over the priorities |
| Suggestions.CriticalEntry | src/suggestions.py:273-288 | the dispatch for one priority |
| Suggestions.AdviseFrom | src/suggestions.py:274-288 | the first two suggestions of the selected generator |
| Suggestions.AdviseImportant | src/suggestions.py:291-298 | the [2:4] slices of the content and section advice |
| Suggestions.AdviseEnhancement | src/suggestions.py:301-306 | the first two formatting tips and the enhancement tips |
| Suggestions.GenerateImprovementActionPlan | src/suggestions.py:314-347 | the appends build the plan |
| Suggestions.ActionPlanSpec | src/suggestions.py:318-347 | one entry per non-empty tier, high before medium before low, each with the first one to three items of its tier and its fixed texts |
| Suggestions.GenerateSuggestions | src/suggestions.py:350-367 | the tiers, their plan, and a total equal to the sum of the tier sizes |
| Suggestions.ReportNonEmpty | src/suggestions.py:301-345 | every report has a suggestion, and its plan ends with the low-priority entry |
| SummaryGenerator.DefaultTablesValid | src/summary_generator.py:16-83 | the tables SummaryGenerator() is built with can be drawn from, and no title word is empty |
| SummaryGenerator.RoleScores | src/summary_generator.py:93-105 | one score per role of the table |
| SummaryGenerator.BestOf | src/summary_generator.py:109 | max() picks a position holding the largest score, with every earlier position strictly smaller |
| SummaryGenerator.RoleOf | src/summary_generator.py:85-112 | "Professional" when every role scores 0; otherwise the first role in table order with the largest score |
| SummaryGenerator.DetermineRole | src/summary_generator.py:85-112 | the method computes that role |
| SummaryGenerator.ScoreRoles | src/summary_generator.py:95-105 | the loop over the roles |
| SummaryGenerator.ScoreRole | src/summary_generator.py:96-103 | the loop over one role's keywords |
| SummaryGenerator.CountBonus | src/summary_generator.py:101-103 | the loop over the skill categories for one keyword |
| SummaryGenerator.CategoryBonusBounds | src/summary_generator.py:101-103 | the bonus is at most 2 per category, and positive exactly when some category's skills mention the keyword |
| SummaryGenerator.Flatten | src/summary_generator.py:129-132 | a year is found exactly when some pattern matched it |
| SummaryGenerator.MaxOf | src/summary_generator.py:135 | the maximum is a stated year and at least every stated year |
| SummaryGenerator.EstimateExperience | src/summary_generator.py:114-165 | the method computes the estimate |
| SummaryGenerator.ExperienceOf | src/summary_generator.py:114-165 | specified by StatedYearsDecide, TitleWordsDecide and ComplexityMonotone |
| SummaryGenerator.GatherYears | src/summary_generator.py:129-132 | the loop gathers the matches of every pattern, in pattern order |
| SummaryGenerator.StatedYearsDecide | src/summary_generator.py:134-141 | with stated years: senior exactly when some number is at least 7, entry exactly when all are below 3, and the description starts with the digits of the maximum |
| SummaryGenerator.TitleWordsDecide | src/summary_generator.py:143-165 | without years: a senior word wins, then mid, then junior, and only with none does the content decide |
| SummaryGenerator.ComplexityMonotone | src/summary_generator.py:153-165 | more content never lowers the content estimate, and it is never senior |
| SummaryGenerator.TopSkills | src/summary_generator.py:167-192 | the method computes the top skills |
| SummaryGenerator.TakePriority | src/summary_generator.py:180-183 | the loop over the priority categories |
| SummaryGenerator.FillRemaining | src/summary_generator.py:186-190 | the loop over the other categories |
| SummaryGenerator.PriorityPrefixSound | src/summary_generator.py:180-183 | at most two per priority category, each among the first two skills of a present priority category |
| SummaryGenerator.FillPrefixSound | src/summary_generator.py:186-190 | the filling adds only skills of categories outside the priority list |
| SummaryGenerator.PriorityPrefixEmpty | src/summary_generator.py:180-183 | no skills, no priority picks |
| SummaryGenerator.TopSkillsSpec | src/summary_generator.py:167-192 | at most n skills, each a found skill; none for an empty map; the priority picks alone when they fill n |
| SummaryGenerator.GetSpecializations | src/summary_generator.py:194-205 | the method computes the specialisations |
| SummaryGenerator.SpecializationsSpec | src/summary_generator.py:198-205 | the first two mapped names of the categories with at least 2 skills, in skills order |
| SummaryGenerator.FirstLevel | src/summary_generator.py:220-224 | None exactly when no level has a keyword found; otherwise the first level that does |
| SummaryGenerator.NoLevelInEmptyText | src/summary_generator.py:220-224 | an empty text finds no level whose keywords are non-empty |
| SummaryGenerator.NoEducationInEmptyText | src/summary_generator.py:207-224 | an empty text has no education level |
| SummaryGenerator.EducationSubstringQuirk | src/summary_generator.py:215-221 | "systems" contains "ms" and so reads as a master's degree |
| SummaryGenerator.DetectEducationLevel | src/summary_generator.py:207-224 | specified by FirstLevel over the education table, NoEducationInEmptyText and EducationSubstringQuirk |
| SummaryGenerator.ProjectsSummarySpec | src/summary_generator.py:226-239 | two project lists get the same phrase exactly when their counts match or both exceed 3, and for 2 or 3 the count reads back from the phrase |
| SummaryGenerator.PhraseLength | src/summary_generator.py:230-239 | the four phrases have the lengths 27, 63, 39 and 57, and the count digit sits after "Successfully delivered " |
| SummaryGenerator.ProjectsSummary | src/summary_generator.py:226-239 | specified by ProjectsSummarySpec and PhraseLength |
| SummaryGenerator.FieldIsLastWord | src/summary_generator.py:290 | for a role with a space and no trailing whitespace, the field is its last word, lower-cased |
| SummaryGenerator.CategorySpec | src/summary_generator.py:268-274 | never career change; entry level exactly for an educated candidate with no stated years, no senior or mid word, and a junior word or at most 500 points of content |
| SummaryGenerator.CategoryOf | src/summary_generator.py:268-274 | specified by CategorySpec |
| SummaryGenerator.KeepTwoSentencesSpec | src/summary_generator.py:302-304 | more than two parts give the first two joined with ". " and a full stop; two or fewer are unchanged; the result has one or two |
| SummaryGenerator.SplitLongSentenceSpec | src/summary_generator.py:305-312 | splitting one long sentence gives at most two |
| SummaryGenerator.ShapeSummarySpec | src/summary_generator.py:301-312 | the summary has one or two sentences |
| SummaryGenerator.GenerateAlternatives | src/summary_generator.py:328-347 | the loop over the first two templates |
| SummaryGenerator.AlternativesSpec | src/summary_generator.py:333-347 | two alternatives, or as many templates as there are; each the i-th template filled and cut; each of one or two sentences |
| SummaryGenerator.GenerateSummary | src/summary_generator.py:241-326 | the method computes the summary result |
| SummaryGenerator.SummaryParts | src/summary_generator.py:253-326 | the components and category are the helpers' results |
| SummaryGenerator.SummarySpec | src/summary_generator.py:245-326 | an error gives the failure text and the same error; otherwise one or two sentences, never career change, at most 2 alternatives, at most 3 skills and 2 specialisations, and the helpers' role, estimate and education |
| SummaryGenerator.SummaryOf | src/summary_generator.py:241-326 | specified by SummarySpec and SummaryParts; GenerateSummary computes it |
| SummaryGenerator.NoTitleWordsInEmptyText | src/summary_generator.py:144-151 | an empty text holds no title word |
| SummaryGenerator.BlankTextSummary | src/summary_generator.py:241-326 | with no text and no stated years: no education, the experienced templates, and a content-only estimate that is never senior |
| SummaryGenerator.PipelineIgnoresText | src/text_analyzer.py:307-321 | the analysis dict has no text and no stated years, so BlankTextSummary applies to it |
| SummaryGenerator.FlattenNone | src/summary_generator.py:129-132 | patterns without matches find no years |
| SummaryGenerator.PipelineReadsText | src/summary_generator.py:254-270 | with the text supplied, education and stated years reach the summary, and an educated junior gets the entry-level templates |
| Common.Capitalize | src/summary_generator.py:312 | str.capitalize keeps the length |
| Common.SplitOn | src/summary_generator.py:302 | str.split(". ") gives at least one part |
| Common.JoinSplitOn | src/summary_generator.py:302-304 | joining the parts of a split gives the string back |
| Common.Title | src/rating_system.py:328 | str.title keeps the length |
| Common.LowerDisplayName | src/rating_system.py:328 | lower-casing a key's display name gives the key with spaces for underscores |

## Left out

- Library calls. NLTK's tokeniser, sentence splitter and part-of-speech tagger, TextBlob's
  words and sentences, and the stopword list are inputs (`Analyzer.Nlp`, `Databases`). So
  are the module-level downloads and SSL patching.
- Regular expressions. The `\b` skill search, the four contact patterns and the four year
  patterns are inputs: a found-predicate, the lists of matches, and the year matches of
  `SummaryInput`.
- The phone field is whatever the first match is. With one capture group, Python's
  `re.findall` returns the country-code group, so this is often the empty string
  (src/text_analyzer.py:215-218).
- JSON loading. The skills and job-keyword databases are parameters; their load errors and
  messages are not modelled.
- Concrete random draws. `random.choice`, `random.sample`, and the iteration order of
  Python sets are streams of drawn numbers.
- Binary floats. Scores are reals, and `round()` is decimal rounding half up. Banker's
  rounding and representation error are not modelled.
- Rating.Rounded: states the decimal rounding of exact reals, not Python's float `round`.
- Unicode. Characters are ASCII: `lower`, `title` and `capitalize` change only ASCII
  letters. Whitespace is what Python's `str.split()` and `str.strip()` treat as whitespace
  among the ASCII characters (space, tab to carriage return, 0x1C to 0x1F). The non-ASCII
  whitespace Python also splits on (0x85, 0xA0, U+2000 and the like) counts as a word
  character here.
- Dictionary order. The sections dict comes from detect_sections, so it always holds all
  eight keys, or none after a blank input; it is read in the order of the sections table.
- Unused parameter. `detailed_scores` of `generate_formatting_suggestions` is unused in the
  source and is not a parameter here.
- The `KeyError` fallback of `generate_summary` (src/summary_generator.py:297-299) cannot
  happen. Every placeholder of the three template tables is a key of `template_vars`, and
  `Format` is total. The same holds for the `except KeyError: continue` of
  `_generate_alternatives`.
- `str.format` is modelled on templates already parsed into text and named slots. The
  brace-escaping rules are not.
- The `capitalize()` split of a long single sentence is modelled, but only its sentence
  count is stated (SplitLongSentenceSpec): it is a formatting heuristic with no further
  promise.
- Suggestions.FormattingSpec: states the three messages and that each tip is from the
  table, but not that the three tips differ (that follows from Random.SampleDistinct when
  the table has no repeated tip).
- SummaryGenerator.EducationSubstringQuirk: education keywords are plain substrings, so
  "ms" in "systems" counts. This is modelled as written, since the pattern list is short
  keywords on purpose and no intended behaviour can be named.
- The career-change templates are part of the tables but are never chosen
  (src/summary_generator.py:268-274); CategorySpec states this.
- Streamlit pages (app.py, main_app.py), charts, session state and `src/pdf_parser.py` are
  not part of this model.
- Where the code differs from its own comments, the code is followed:
  - 800 words score 7.0 for content length; only above 800 does the score drop to 5.0.
  - An empty readability dict scores 5.0.
  - The zero-count readability dict lacks `complexity_ratio`, so it scores 10.0, not 0.
  - Criterion names reach the suggestion dispatch title-cased, so "Contact Completeness"
    and "Project Quality" select no generator.

## Findings

| source | as written | input that shows it | evidently intended | confidence | as-written member | corrected member |
|---|---|---|---|---|---|---|
| src/summary_generator.py:260 | `generate_summary` reads `analysis_result.get('text', '')` (also at lines 89 and 119), but `analyze_resume` returns no `'text'` key (src/text_analyzer.py:307-321). The app passes that dict straight through (app.py:304-317, main_app.py:231-244). So years and education are never read from the resume, and the role is scored from the skills found alone. | any resume, e.g. one saying "PhD" and "10 years of experience": the summary reports no education and a content-based estimate, never senior | the summary reads the resume text, so its education level and stated years reach the summary | not executed | SummaryGenerator.PipelineIgnoresText, SummaryGenerator.BlankTextSummary | SummaryGenerator.PipelineReadsText |
