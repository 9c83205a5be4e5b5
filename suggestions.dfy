/** The suggestion engine: templated advice built from an analysis and its rating, grouped
    into critical, important and enhancement tiers, and the action plan made from the tiers.
    The engine's template tables are a value, SuggestionsSystem, that every generator takes.
    Every generator is a method that appends to a list, proved equal to a function that
    states what the list holds. Each call of random.choice or random.sample draws from a
    Stream; the offsets into the stream are fixed per call site, so every property below
    holds whatever values the generator returns. */
module Suggestions {
  import opened Common
  import opened Random
  import opened Analyzer
  import opened Rating

  /** detailed_scores.get(key, 0) */
  function ScoreOf(ds: Scores, c: Criterion): real {
    if HasKey(ds, c) then Lookup(ds, c) else 0.0
  }

  // ---------------------------------------------------------------- the template tables

  /** the tables a SuggestionsSystem is built with: the skill templates per category (a dict,
      in insertion order), the section templates, the formatting tips, and the action verbs
      and metrics examples of the content tips */
  datatype SuggestionsSystem = SuggestionsSystem(
    skillSuggestions: seq<(string, seq<string>)>,
    sectionSuggestions: map<Section, seq<string>>,
    formattingSuggestions: seq<string>,
    actionVerbs: seq<string>,
    metricsExamples: seq<string>)
  {
    /** what the generators rely on: every template list can be chosen from, the important
        sections have templates, and every sample finds enough elements */
    predicate Valid() {
      && IsDict(skillSuggestions)
      && (forall e :: e in skillSuggestions ==> |e.1| > 0)
      && (forall s :: s in sectionSuggestions ==> |sectionSuggestions[s]| > 0)
      && Summary in sectionSuggestions && Projects in sectionSuggestions
      && |formattingSuggestions| >= 3 && |actionVerbs| >= 4 && |metricsExamples| >= 3
    }
  }

  type System = sys: SuggestionsSystem | sys.Valid()
    witness SuggestionsSystem([], map[Summary := [""], Projects := [""]], ["", "", ""], ["", "", "", ""], ["", "", ""])

  /** the tables SuggestionsSystem() is built with */
  const DefaultSystem: SuggestionsSystem := SuggestionsSystem(
    DefaultSkillSuggestions, DefaultSectionSuggestions, DefaultFormattingSuggestions,
    DefaultActionVerbs, DefaultMetricsExamples)

  const DefaultSkillSuggestions: seq<(string, seq<string>)> :=
    [("programming_languages",
      ["Add specific programming languages you've used in projects",
       "Mention version numbers for programming languages (e.g., Python 3.9)",
       "Include both frontend and backend technologies if applicable",
       "Add emerging technologies relevant to your field"]),
     ("web_technologies",
      ["List specific frameworks and libraries you've worked with",
       "Mention responsive design and mobile-first development experience",
       "Include API development and integration experience",
       "Add version control systems (Git, GitHub, GitLab)"]),
     ("databases",
      ["Specify database management systems you've used",
       "Mention both SQL and NoSQL databases if applicable",
       "Include database design and optimization experience",
       "Add data modeling and schema design skills"]),
     ("cloud_platforms",
      ["List cloud platforms and services you've used",
       "Mention specific AWS/Azure/GCP services",
       "Include containerization technologies (Docker, Kubernetes)",
       "Add CI/CD pipeline experience"]),
     ("soft_skills",
      ["Include leadership and team collaboration skills",
       "Mention communication and presentation abilities",
       "Add problem-solving and analytical thinking skills",
       "Include project management and organizational skills"])]

  const DefaultSectionSuggestions: map<Section, seq<string>> :=
    map[
      Summary := [
        "Add a professional summary highlighting your key achievements",
        "Include 2-3 lines summarizing your expertise and career goals",
        "Mention years of experience and key specializations",
        "Include your most impressive accomplishment or metric"],
      Experience := [
        "Use action verbs to start each bullet point (Developed, Implemented, Led)",
        "Include quantifiable achievements and metrics",
        "Mention specific technologies and tools used",
        "Focus on impact and results rather than just responsibilities"],
      Education := [
        "Include your degree, major, university, and graduation year",
        "Add relevant coursework if you're a recent graduate",
        "Mention academic achievements, honors, or high GPA",
        "Include relevant certifications and professional development"],
      Skills := [
        "Organize skills into categories (Technical, Languages, Tools)",
        "List skills in order of proficiency",
        "Include both hard and soft skills",
        "Match skills to job requirements when possible"],
      Projects := [
        "Include 2-4 relevant projects with brief descriptions",
        "Mention technologies used and your role",
        "Add links to GitHub repos or live demos",
        "Quantify impact or results where possible"]]

  const DefaultFormattingSuggestions: seq<string> :=
    ["Use consistent formatting throughout the document",
     "Keep margins between 0.5-1 inch on all sides",
     "Use a professional, readable font (Arial, Calibri, Times New Roman)",
     "Maintain consistent font sizes (10-12pt for body, 14-16pt for headers)",
     "Use bullet points for easy scanning",
     "Ensure adequate white space between sections",
     "Keep resume to 1-2 pages maximum",
     "Save as PDF to preserve formatting"]

  const DefaultActionVerbs: seq<string> :=
    ["Achieved", "Developed", "Implemented", "Led", "Managed", "Created",
     "Improved", "Increased", "Reduced", "Optimized", "Designed", "Built"]

  const DefaultMetricsExamples: seq<string> :=
    ["Increased system efficiency by 25%",
     "Reduced processing time by 4 hours daily",
     "Led a cross-functional team of 8 developers",
     "Improved user satisfaction scores from 3.2 to 4.6",
     "Generated $2M+ in additional revenue through optimization",
     "Completed 95% of projects ahead of schedule"]

  lemma DefaultSkillSuggestionsValid()
    ensures IsDict(DefaultSkillSuggestions)
    ensures forall e :: e in DefaultSkillSuggestions ==> |e.1| > 0
  {
    assert Keys(DefaultSkillSuggestions) ==
      ["programming_languages", "web_technologies", "databases", "cloud_platforms", "soft_skills"];
  }

  lemma DefaultSectionSuggestionsValid()
    ensures forall s :: s in DefaultSectionSuggestions ==> |DefaultSectionSuggestions[s]| > 0
    ensures Summary in DefaultSectionSuggestions && Projects in DefaultSectionSuggestions
  {
  }

  /** The default tables satisfy what the generators rely on. */
  lemma DefaultSystemValid()
    ensures DefaultSystem.Valid()
  {
    DefaultSkillSuggestionsValid();
    DefaultSectionSuggestionsValid();
  }

  const GenericSkillTip := "Add more specific skills in this category"

  /** self.skill_suggestions.get(category, ["Add more specific skills in this category"]) */
  function SkillTips(sys: System, category: string): (tips: seq<string>)
    ensures |tips| > 0
    ensures !HasKey(sys.skillSuggestions, category) ==> tips == [GenericSkillTip]
  {
    if HasKey(sys.skillSuggestions, category) then
      LookupIn(sys.skillSuggestions, category);
      Lookup(sys.skillSuggestions, category)
    else [GenericSkillTip]
  }

  // the advice that takes no template
  const DiversityMessage :=
    "\U{1F4A1} **Skills Diversity**: Add skills from different categories (technical, tools, soft skills)"
  const QuantityMessage :=
    "\U{1F4C8} **Skills Quantity**: Add more specific skills and technologies you've worked with"
  const TooBriefMessage :=
    "\U{1F4DD} **Content Length**: Your resume is too brief. Add more details about your experience and achievements"
  const TooLongMessage :=
    "\U{2702}\U{FE0F} **Content Length**: Your resume is too long. Focus on the most relevant and impactful information"
  const LongSentencesMessage :=
    "\U{1F3AF} **Readability**: Use shorter, more concise sentences for better readability"
  const ComplexWordsMessage :=
    "\U{1F4AD} **Readability**: Simplify complex words where possible while maintaining professionalism"
  const NoProjectsMessage :=
    "\U{1F680} **Projects**: Add 2-3 relevant projects that showcase your skills"
  const FewProjectsMessage :=
    "\U{1F680} **Projects**: Add more projects to demonstrate your practical experience"
  const ShortDescriptionsMessage :=
    "\U{1F4CB} **Project Descriptions**: Expand your project descriptions with technologies used and impact achieved"

  // ---------------------------------------------------------------- generate_skill_suggestions

  // the fixed parts of the templated messages
  const LabelEnd := "**: "
  const ListSeparator := ", "
  const MissingCategoryOpen := "\U{2728} **"
  const ThinCategoryOpen := "\U{1F527} **"

  function MissingCategoryMessage(category: string, tip: string): string {
    MissingCategoryOpen + DisplayName(category) + LabelEnd + tip
  }

  function ThinCategoryMessage(category: string, tip: string): string {
    ThinCategoryOpen + DisplayName(category) + LabelEnd + tip
  }

  /** the template categories absent from the skills found */
  function MissingCategories(sys: System, skills: SkillMap): (r: seq<string>)
    ensures forall c :: c in r <==> HasKey(sys.skillSuggestions, c) && !HasKey(skills, c)
  {
    Filter(Keys(sys.skillSuggestions), c => !HasKey(skills, c))
  }

  /** list(missing_categories)[:2], the set's order drawn from rnd(0) and rnd(1) */
  function ChosenMissing(sys: System, skills: SkillMap, rnd: Stream): seq<string> {
    Sample(MissingCategories(sys, skills), 2, rnd, 0)
  }

  /** the advice for the i-th chosen missing category, its template drawn from rnd(2 + i) */
  function MissingChunk(sys: System, rnd: Stream): (nat, string) -> seq<string> {
    (i: nat, c: string) => [MissingCategoryMessage(c, Choice(SkillTips(sys, c), rnd(2 + i)))]
  }

  /** the advice for the j-th skill category when it holds fewer than 3 skills, its template
      drawn from rnd(4 + j) */
  function ThinChunk(sys: System, rnd: Stream): (nat, (string, seq<string>)) -> seq<string> {
    (j: nat, e: (string, seq<string>)) =>
      if |e.1| < 3 then [ThinCategoryMessage(e.0, Choice(SkillTips(sys, e.0), rnd(4 + j)))] else []
  }

  function DiversityAdvice(sys: System, skills: SkillMap, ds: Scores, rnd: Stream): seq<string> {
    if ScoreOf(ds, SkillsDiversity) < 7.0 then
      var chosen := ChosenMissing(sys, skills, rnd);
      [DiversityMessage] + Collect(chosen, |chosen|, MissingChunk(sys, rnd))
    else []
  }

  function QuantityAdvice(sys: System, skills: SkillMap, ds: Scores, rnd: Stream): seq<string> {
    if ScoreOf(ds, SkillsQuantity) < 7.0 then
      [QuantityMessage] + Collect(skills, |skills|, ThinChunk(sys, rnd))
    else []
  }

  function SkillSuggestions(sys: System, skills: SkillMap, ds: Scores, rnd: Stream): seq<string> {
    DiversityAdvice(sys, skills, ds, rnd) + QuantityAdvice(sys, skills, ds, rnd)
  }

  method GenerateSkillSuggestions(sys: System, skills: SkillMap, ds: Scores, rnd: Stream)
    returns (suggestions: seq<string>)
    ensures suggestions == SkillSuggestions(sys, skills, ds, rnd)
  {
    var diversity := AdviseDiversity(sys, skills, ds, rnd);
    var quantity := AdviseQuantity(sys, skills, ds, rnd);
    suggestions := diversity + quantity;
  }

  method AdviseDiversity(sys: System, skills: SkillMap, ds: Scores, rnd: Stream) returns (suggestions: seq<string>)
    ensures suggestions == DiversityAdvice(sys, skills, ds, rnd)
  {
    suggestions := [];
    if ScoreOf(ds, SkillsDiversity) < 7.0 {
      var missing := AdviseMissingCategories(sys, ChosenMissing(sys, skills, rnd), rnd);
      suggestions := [DiversityMessage] + missing;
    }
  }

  method AdviseQuantity(sys: System, skills: SkillMap, ds: Scores, rnd: Stream) returns (suggestions: seq<string>)
    ensures suggestions == QuantityAdvice(sys, skills, ds, rnd)
  {
    suggestions := [];
    if ScoreOf(ds, SkillsQuantity) < 7.0 {
      var thin := AdviseThinCategories(sys, skills, rnd);
      suggestions := [QuantityMessage] + thin;
    }
  }

  /** the loop over the skill categories found, advising those with fewer than 3 skills */
  method AdviseThinCategories(sys: System, skills: SkillMap, rnd: Stream) returns (suggestions: seq<string>)
    ensures suggestions == Collect(skills, |skills|, ThinChunk(sys, rnd))
  {
    suggestions := [];
    for j := 0 to |skills|
      invariant suggestions == Collect(skills, j, ThinChunk(sys, rnd))
    {
      if |skills[j].1| < 3 {
        var tip := Choice(SkillTips(sys, skills[j].0), rnd(4 + j));
        suggestions := suggestions + [ThinCategoryMessage(skills[j].0, tip)];
      }
    }
  }

  /** the loop over the chosen missing categories */
  method AdviseMissingCategories(sys: System, missing: seq<string>, rnd: Stream) returns (suggestions: seq<string>)
    ensures suggestions == Collect(missing, |missing|, MissingChunk(sys, rnd))
  {
    suggestions := [];
    for i := 0 to |missing|
      invariant suggestions == Collect(missing, i, MissingChunk(sys, rnd))
    {
      var tip := Choice(SkillTips(sys, missing[i]), rnd(2 + i));
      suggestions := suggestions + [MissingCategoryMessage(missing[i], tip)];
    }
  }

  /** At most two missing categories are advised: two when two or more are missing, all of
      them otherwise, none twice, each a template category absent from the skills found. */
  lemma ChosenMissingSpec(sys: System, skills: SkillMap, rnd: Stream)
    ensures |ChosenMissing(sys, skills, rnd)| ==
              if |MissingCategories(sys, skills)| < 2 then |MissingCategories(sys, skills)| else 2
    ensures Distinct(ChosenMissing(sys, skills, rnd))
    ensures forall c :: c in ChosenMissing(sys, skills, rnd) ==>
              HasKey(sys.skillSuggestions, c) && !HasKey(skills, c)
  {
    var pool := MissingCategories(sys, skills);
    var chosen := ChosenMissing(sys, skills, rnd);
    FilterDistinct(Keys(sys.skillSuggestions), c => !HasKey(skills, c));
    SampleDistinct(pool, 2, rnd, 0);
    forall c | c in chosen ensures c in pool {
      assert c in multiset(chosen);
    }
  }

  /** The diversity advice is the fixed message followed by one message per chosen missing
      category, each naming the category and one of its templates; it is given only below 7.0. */
  lemma DiversityAdviceSpec(sys: System, skills: SkillMap, ds: Scores, rnd: Stream)
    ensures ScoreOf(ds, SkillsDiversity) >= 7.0 ==> DiversityAdvice(sys, skills, ds, rnd) == []
    ensures ScoreOf(ds, SkillsDiversity) < 7.0 ==>
              var chosen := ChosenMissing(sys, skills, rnd);
              var advice := DiversityAdvice(sys, skills, ds, rnd);
              && |advice| == 1 + |chosen| <= 3
              && advice[0] == DiversityMessage
              && forall k :: 0 <= k < |chosen| ==>
                   advice[k + 1] == MissingCategoryMessage(chosen[k], Choice(SkillTips(sys, chosen[k]), rnd(2 + k)))
  {
    if ScoreOf(ds, SkillsDiversity) < 7.0 {
      var chosen := ChosenMissing(sys, skills, rnd);
      var chunk := MissingChunk(sys, rnd);
      ChosenMissingSpec(sys, skills, rnd);
      CollectSingles(chosen, |chosen|, chunk);
      var missing := Collect(chosen, |chosen|, chunk);
      assert DiversityAdvice(sys, skills, ds, rnd) == [DiversityMessage] + missing;
      forall k | 0 <= k < |chosen|
        ensures missing[k] == MissingCategoryMessage(chosen[k], Choice(SkillTips(sys, chosen[k]), rnd(2 + k)))
      {
        MissingChunkAt(sys, rnd, k, chosen[k]);
      }
    }
  }

  lemma MissingChunkAt(sys: System, rnd: Stream, k: nat, c: string)
    ensures MissingChunk(sys, rnd)(k, c) == [MissingCategoryMessage(c, Choice(SkillTips(sys, c), rnd(2 + k)))]
  {
  }

  lemma {:induction false} CollectSingles<T>(xs: seq<T>, n: nat, chunk: (nat, T) -> seq<string>)
    requires n <= |xs| && forall i :: 0 <= i < n ==> |chunk(i, xs[i])| == 1
    ensures |Collect(xs, n, chunk)| == n
    ensures forall k :: 0 <= k < n ==> Collect(xs, n, chunk)[k] == chunk(k, xs[k])[0]
  {
    if n > 0 {
      CollectSingles(xs, n - 1, chunk);
    }
  }

  /** Every message of the quantity loop names a skill category holding fewer than three
      skills, with one of its templates. */
  lemma ThinAdviceSound(sys: System, skills: SkillMap, rnd: Stream, y: string)
    requires y in Collect(skills, |skills|, ThinChunk(sys, rnd))
    ensures exists j :: 0 <= j < |skills| && |skills[j].1| < 3 && y == ThinMessageAt(sys, skills, rnd, j)
  {
    CollectMember(skills, |skills|, ThinChunk(sys, rnd), y);
    var j :| 0 <= j < |skills| && y in ThinChunk(sys, rnd)(j, skills[j]);
    assert |skills[j].1| < 3 && y == ThinMessageAt(sys, skills, rnd, j);
  }

  /** Every skill category holding fewer than three skills is advised. */
  lemma ThinAdviceComplete(sys: System, skills: SkillMap, rnd: Stream, j: nat)
    requires j < |skills| && |skills[j].1| < 3
    ensures ThinMessageAt(sys, skills, rnd, j) in Collect(skills, |skills|, ThinChunk(sys, rnd))
  {
    assert ThinChunk(sys, rnd)(j, skills[j]) == [ThinMessageAt(sys, skills, rnd, j)];
    CollectContains(skills, |skills|, ThinChunk(sys, rnd), j, ThinMessageAt(sys, skills, rnd, j));
  }

  /** the message for the j-th skill category, its template drawn from rnd(4 + j) */
  function ThinMessageAt(sys: System, skills: SkillMap, rnd: Stream, j: nat): string
    requires j < |skills|
  {
    ThinCategoryMessage(skills[j].0, Choice(SkillTips(sys, skills[j].0), rnd(4 + j)))
  }

  // ---------------------------------------------------------------- generate_section_suggestions

  /** section.title() */
  function SectionTitle(s: Section): string {
    Title(SectionKey(s))
  }

  const MissingSectionOpen := "\U{26A0}\U{FE0F} **Missing "
  const MissingSectionClose := " Section**: This is essential for any resume"
  const AddSectionOpen := "\U{2795} **Add "
  const ImproveSectionOpen := "\U{270F}\U{FE0F} **Improve "
  const SectionLabelEnd := " Section**: "

  function MissingSectionMessage(s: Section): string {
    MissingSectionOpen + SectionTitle(s) + MissingSectionClose
  }

  function AddSectionMessage(s: Section, tip: string): string {
    AddSectionOpen + SectionTitle(s) + SectionLabelEnd + tip
  }

  function ImproveSectionMessage(s: Section, tip: string): string {
    ImproveSectionOpen + SectionTitle(s) + SectionLabelEnd + tip
  }

  /** `not sections_analysis.get(section, False)` */
  function Absent(sections: map<Section, bool>): Section -> bool {
    s => !SectionOn(sections, s)
  }

  /** a present section that has templates */
  predicate Improvable(sys: System, sections: map<Section, bool>, s: Section) {
    SectionOn(sections, s) && s in sys.sectionSuggestions
  }

  type ImportantSection = s: Section | s == Summary || s == Projects witness Summary

  /** the important sections, whose templates are looked up without a default */
  const AddableSections: seq<ImportantSection> := [Summary, Projects]

  function MissingSectionChunk(sections: map<Section, bool>): (nat, Section) -> seq<string> {
    (i: nat, s: Section) => if !SectionOn(sections, s) then [MissingSectionMessage(s)] else []
  }

  /** the i-th important section, its template drawn from rnd(i) */
  function AddSectionChunk(sys: System, sections: map<Section, bool>, rnd: Stream)
    : (nat, ImportantSection) -> seq<string>
  {
    (i: nat, s: ImportantSection) =>
      if !SectionOn(sections, s) then [AddSectionMessage(s, Choice(sys.sectionSuggestions[s], rnd(i)))] else []
  }

  /** the message for the i-th section of the table, its template drawn from rnd(2 + i) */
  function ImproveMessageAt(sys: System, rnd: Stream, i: nat, s: Section): string
    requires s in sys.sectionSuggestions
  {
    ImproveSectionMessage(s, Choice(sys.sectionSuggestions[s], rnd(2 + i)))
  }

  function ImproveChunk(sys: System, sections: map<Section, bool>, rnd: Stream): (nat, Section) -> seq<string> {
    (i: nat, s: Section) => if Improvable(sys, sections, s) then [ImproveMessageAt(sys, rnd, i, s)] else []
  }

  function MissingSectionAdvice(sections: map<Section, bool>): seq<string> {
    Collect(EssentialSections, |EssentialSections|, MissingSectionChunk(sections))
  }

  function AddSectionAdvice(sys: System, sections: map<Section, bool>, rnd: Stream): seq<string> {
    Collect(AddableSections, |AddableSections|, AddSectionChunk(sys, sections, rnd))
  }

  function ImproveSectionAdvice(sys: System, sections: map<Section, bool>, ds: Scores, rnd: Stream): seq<string> {
    if ScoreOf(ds, SectionsCompleteness) < 8.0 then
      Collect(SectionOrder, |SectionOrder|, ImproveChunk(sys, sections, rnd))
    else []
  }

  function SectionSuggestions(sys: System, sections: map<Section, bool>, ds: Scores, rnd: Stream): seq<string> {
    MissingSectionAdvice(sections) + AddSectionAdvice(sys, sections, rnd) + ImproveSectionAdvice(sys, sections, ds, rnd)
  }

  method GenerateSectionSuggestions(sys: System, sections: map<Section, bool>, ds: Scores, rnd: Stream)
    returns (suggestions: seq<string>)
    ensures suggestions == SectionSuggestions(sys, sections, ds, rnd)
  {
    var missing := AdviseMissingSections(sections);
    var add := AdviseAddSections(sys, sections, rnd);
    suggestions := missing + add;
    if ScoreOf(ds, SectionsCompleteness) < 8.0 {
      var improve := AdviseImprovements(sys, sections, rnd);
      suggestions := suggestions + improve;
    }
  }

  /** the loop over the essential sections */
  method AdviseMissingSections(sections: map<Section, bool>) returns (suggestions: seq<string>)
    ensures suggestions == MissingSectionAdvice(sections)
  {
    suggestions := [];
    for i := 0 to |EssentialSections|
      invariant suggestions == Collect(EssentialSections, i, MissingSectionChunk(sections))
    {
      var section := EssentialSections[i];
      if !SectionOn(sections, section) {
        suggestions := suggestions + [MissingSectionMessage(section)];
      }
    }
  }

  /** the loop over the important sections */
  method AdviseAddSections(sys: System, sections: map<Section, bool>, rnd: Stream) returns (suggestions: seq<string>)
    ensures suggestions == AddSectionAdvice(sys, sections, rnd)
  {
    suggestions := [];
    for i := 0 to |AddableSections|
      invariant suggestions == Collect(AddableSections, i, AddSectionChunk(sys, sections, rnd))
    {
      var section := AddableSections[i];
      if !SectionOn(sections, section) {
        var tip := Choice(sys.sectionSuggestions[section], rnd(i));
        suggestions := suggestions + [AddSectionMessage(section, tip)];
      }
    }
  }

  /** The loop over the sections table, in its own order; a section that is not a key is not
      visited, as in a loop over the dict's items. */
  method AdviseImprovements(sys: System, sections: map<Section, bool>, rnd: Stream) returns (suggestions: seq<string>)
    ensures suggestions == Collect(SectionOrder, |SectionOrder|, ImproveChunk(sys, sections, rnd))
  {
    suggestions := [];
    for i := 0 to |SectionOrder|
      invariant suggestions == Collect(SectionOrder, i, ImproveChunk(sys, sections, rnd))
    {
      var advice := ImproveEntry(sys, sections, rnd, i, SectionOrder[i]);
      suggestions := suggestions + advice;
    }
  }

  /** the advice for the i-th section of the table */
  method ImproveEntry(sys: System, sections: map<Section, bool>, rnd: Stream, i: nat, section: Section)
    returns (advice: seq<string>)
    ensures advice == ImproveChunk(sys, sections, rnd)(i, section)
  {
    advice := [];
    if section in sections && sections[section] && section in sys.sectionSuggestions {
      advice := [ImproveMessageAt(sys, rnd, i, section)];
    }
  }

  /** The section advice starts with one "Missing" message per absent essential section
      (experience, education, skills), in that order. */
  lemma MissingSectionsFirst(sections: map<Section, bool>)
    ensures MissingSectionAdvice(sections) == Map(Filter(EssentialSections, Absent(sections)), MissingSectionMessage)
  {
    var chunk := MissingSectionChunk(sections);
    forall i | 0 <= i < |EssentialSections|
      ensures chunk(i, EssentialSections[i]) == Guarded(Absent(sections), MissingSectionMessage, EssentialSections[i])
    {
    }
    CollectGuarded(EssentialSections, |EssentialSections|, chunk, Absent(sections), MissingSectionMessage);
    assert EssentialSections[..|EssentialSections|] == EssentialSections;
  }

  /** An "Improve" message is given only when sections_completeness is below 8.0, and only for
      a present section that has templates. */
  lemma ImproveSound(sys: System, sections: map<Section, bool>, ds: Scores, rnd: Stream, y: string)
    requires y in ImproveSectionAdvice(sys, sections, ds, rnd)
    ensures ScoreOf(ds, SectionsCompleteness) < 8.0
    ensures exists i :: 0 <= i < |SectionOrder| && Improvable(sys, sections, SectionOrder[i]) &&
              y == ImproveMessageAt(sys, rnd, i, SectionOrder[i])
  {
    CollectMember(SectionOrder, |SectionOrder|, ImproveChunk(sys, sections, rnd), y);
    var i :| 0 <= i < |SectionOrder| && y in ImproveChunk(sys, sections, rnd)(i, SectionOrder[i]);
    assert Improvable(sys, sections, SectionOrder[i]);
  }

  /** Below 8.0, every present section that has templates gets an "Improve" message. */
  lemma ImproveComplete(sys: System, sections: map<Section, bool>, ds: Scores, rnd: Stream, i: nat)
    requires ScoreOf(ds, SectionsCompleteness) < 8.0
    requires i < |SectionOrder| && Improvable(sys, sections, SectionOrder[i])
    ensures ImproveMessageAt(sys, rnd, i, SectionOrder[i]) in ImproveSectionAdvice(sys, sections, ds, rnd)
  {
    var s := SectionOrder[i];
    assert ImproveChunk(sys, sections, rnd)(i, s) == [ImproveMessageAt(sys, rnd, i, s)];
    CollectContains(SectionOrder, |SectionOrder|, ImproveChunk(sys, sections, rnd), i, ImproveMessageAt(sys, rnd, i, s));
  }

  // ---------------------------------------------------------------- generate_content_suggestions

  const ContactOpen := "\U{1F4DE} **Contact Info**: Add "
  const EmailDetail := "professional email"
  const PhoneDetail := "phone number"
  const LinkedInDetail := "LinkedIn profile"

  function ContactMessage(missing: seq<string>): string {
    ContactOpen + Join(missing, ListSeparator)
  }

  function LengthAdvice(wordCount: nat, ds: Scores): seq<string> {
    if ScoreOf(ds, ContentLength) < 7.0 then
      if wordCount < 150 then [TooBriefMessage]
      else if wordCount > 800 then [TooLongMessage]
      else []
    else []
  }

  /** a missing average sentence length counts as 20, a missing complexity ratio as 0.3 */
  function ReadabilityAdvice(m: Readability, ds: Scores): seq<string> {
    if ScoreOf(ds, TextReadability) < 7.0 then
      (if m.avgSentenceLength.GetOr(20.0) > 25.0 then [LongSentencesMessage] else []) +
      (if m.complexityRatio.GetOr(0.3) > 0.5 then [ComplexWordsMessage] else [])
    else []
  }

  predicate IsShortProject(p: string) {
    WordCount(p) < 10
  }

  function ProjectAdvice(projects: seq<string>, ds: Scores): seq<string> {
    if ScoreOf(ds, ProjectQuality) < 7.0 then
      (if |projects| == 0 then [NoProjectsMessage]
       else if |projects| < 3 then [FewProjectsMessage]
       else []) +
      (if Filter(projects, IsShortProject) != [] then [ShortDescriptionsMessage] else [])
    else []
  }

  /** the missing contact details the advice names: email, phone and LinkedIn, never GitHub */
  function MissingContact(contact: map<ContactField, string>): seq<string> {
    (if Email !in contact then [EmailDetail] else []) +
    (if Phone !in contact then [PhoneDetail] else []) +
    (if LinkedIn !in contact then [LinkedInDetail] else [])
  }

  function ContactAdvice(contact: map<ContactField, string>, ds: Scores): seq<string> {
    if ScoreOf(ds, ContactCompleteness) < 8.0 && MissingContact(contact) != [] then
      [ContactMessage(MissingContact(contact))]
    else []
  }

  function ContentSuggestions(a: Analysis, ds: Scores): seq<string> {
    LengthAdvice(a.readability.wordCount.GetOr(0), ds) + ReadabilityAdvice(a.readability, ds) +
    ProjectAdvice(a.projects, ds) + ContactAdvice(a.contact, ds)
  }

  method GenerateContentSuggestions(a: Analysis, ds: Scores) returns (suggestions: seq<string>)
    ensures suggestions == ContentSuggestions(a, ds)
  {
    var length := AdviseLength(a.readability.wordCount.GetOr(0), ds);
    var readability := AdviseReadability(a.readability, ds);
    var projects := AdviseProjects(a.projects, ds);
    var contact := AdviseContact(a.contact, ds);
    suggestions := length + readability + projects + contact;
  }

  method AdviseLength(wordCount: nat, ds: Scores) returns (suggestions: seq<string>)
    ensures suggestions == LengthAdvice(wordCount, ds)
  {
    suggestions := [];
    if ScoreOf(ds, ContentLength) < 7.0 {
      if wordCount < 150 {
        suggestions := [TooBriefMessage];
      } else if wordCount > 800 {
        suggestions := [TooLongMessage];
      }
    }
  }

  method AdviseReadability(m: Readability, ds: Scores) returns (suggestions: seq<string>)
    ensures suggestions == ReadabilityAdvice(m, ds)
  {
    suggestions := [];
    if ScoreOf(ds, TextReadability) < 7.0 {
      if m.avgSentenceLength.GetOr(20.0) > 25.0 {
        suggestions := [LongSentencesMessage];
      }
      if m.complexityRatio.GetOr(0.3) > 0.5 {
        suggestions := suggestions + [ComplexWordsMessage];
      }
    }
  }

  method AdviseProjects(projects: seq<string>, ds: Scores) returns (suggestions: seq<string>)
    ensures suggestions == ProjectAdvice(projects, ds)
  {
    suggestions := [];
    if ScoreOf(ds, ProjectQuality) < 7.0 {
      if |projects| == 0 {
        suggestions := [NoProjectsMessage];
      } else if |projects| < 3 {
        suggestions := [FewProjectsMessage];
      }
      var shortProjects := Filter(projects, IsShortProject);
      if shortProjects != [] {
        suggestions := suggestions + [ShortDescriptionsMessage];
      }
    }
  }

  method AdviseContact(contact: map<ContactField, string>, ds: Scores) returns (suggestions: seq<string>)
    ensures suggestions == ContactAdvice(contact, ds)
  {
    suggestions := [];
    if ScoreOf(ds, ContactCompleteness) < 8.0 {
      var missing: seq<string> := [];
      if Email !in contact {
        missing := missing + [EmailDetail];
      }
      if Phone !in contact {
        missing := missing + [PhoneDetail];
      }
      if LinkedIn !in contact {
        missing := missing + [LinkedInDetail];
      }
      assert missing == MissingContact(contact);
      if missing != [] {
        suggestions := [ContactMessage(missing)];
      }
    }
  }

  /** The length advice is given exactly when content_length is below 7.0 and the resume has
      fewer than 150 or more than 800 words. */
  lemma LengthAdviceSpec(wordCount: nat, ds: Scores)
    ensures LengthAdvice(wordCount, ds) != [] <==>
              ScoreOf(ds, ContentLength) < 7.0 && (wordCount < 150 || wordCount > 800)
    ensures |LengthAdvice(wordCount, ds)| <= 1
  {
  }

  /** The contact advice is given exactly when the contact score is below 8.0 and email, phone
      or LinkedIn is missing; it names just those, and GitHub plays no part. */
  lemma ContactAdviceSpec(contact: map<ContactField, string>, ds: Scores, github: string)
    ensures ContactAdvice(contact, ds) != [] <==>
              ScoreOf(ds, ContactCompleteness) < 8.0 && !(Email in contact && Phone in contact && LinkedIn in contact)
    ensures forall x :: x in MissingContact(contact) <==>
              (x == EmailDetail && Email !in contact) || (x == PhoneDetail && Phone !in contact) ||
              (x == LinkedInDetail && LinkedIn !in contact)
    ensures ContactAdvice(contact[GitHub := github], ds) == ContactAdvice(contact, ds)
    ensures ContactAdvice(contact - {GitHub}, ds) == ContactAdvice(contact, ds)
  {
    assert MissingContact(contact[GitHub := github]) == MissingContact(contact);
    assert MissingContact(contact - {GitHub}) == MissingContact(contact);
  }

  /** The readability advice is given only below 7.0: the long-sentences message exactly when
      the average sentence length exceeds 25 and the complex-words message exactly when the
      complexity ratio exceeds 0.5, a missing value counting as 20 and 0.3, so the empty
      readability dictionary draws no advice. */
  lemma ReadabilityAdviceSpec(m: Readability, ds: Scores)
    ensures ScoreOf(ds, TextReadability) >= 7.0 ==> ReadabilityAdvice(m, ds) == []
    ensures |ReadabilityAdvice(m, ds)| <= 2
    ensures m.avgSentenceLength.None? && m.complexityRatio.None? ==> ReadabilityAdvice(m, ds) == []
    ensures ScoreOf(ds, TextReadability) < 7.0 ==>
              (LongSentencesMessage in ReadabilityAdvice(m, ds) <==> m.avgSentenceLength.GetOr(20.0) > 25.0)
    ensures ScoreOf(ds, TextReadability) < 7.0 ==>
              (ComplexWordsMessage in ReadabilityAdvice(m, ds) <==> m.complexityRatio.GetOr(0.3) > 0.5)
  {
  }

  /** The projects advice, only below 7.0: the no-projects message exactly when there are
      none, the few-projects message exactly when there are one or two, and the description
      message exactly when some project has fewer than ten words. */
  lemma ProjectAdviceSpec(projects: seq<string>, ds: Scores)
    ensures ScoreOf(ds, ProjectQuality) < 7.0 ==>
              (NoProjectsMessage in ProjectAdvice(projects, ds) <==> |projects| == 0)
    ensures ScoreOf(ds, ProjectQuality) < 7.0 ==>
              (FewProjectsMessage in ProjectAdvice(projects, ds) <==> 0 < |projects| < 3)
    ensures ShortDescriptionsMessage in ProjectAdvice(projects, ds) <==>
              ScoreOf(ds, ProjectQuality) < 7.0 && exists p :: p in projects && WordCount(p) < 10
    ensures ProjectAdvice(projects, ds) != [] ==> ScoreOf(ds, ProjectQuality) < 7.0
    ensures |ProjectAdvice(projects, ds)| <= 2
  {
    assert |NoProjectsMessage| < |FewProjectsMessage| < |ShortDescriptionsMessage|;
    var short := Filter(projects, IsShortProject);
    if short != [] {
      assert short[0] in short;
    }
    if exists p :: p in projects && WordCount(p) < 10 {
      var p :| p in projects && WordCount(p) < 10;
      assert p in short;
    }
  }

  /** Given the rating's scores, generate_content_suggestions always includes the too-brief
      message for a resume of fewer than 150 words: the content_length score the rating reports
      (Rate(a).detailedScores, by RateSpec) is below 4.0. */
  lemma BriefResumeAdvised(a: Analysis)
    requires a.readability.wordCount.GetOr(0) < 150
    ensures TooBriefMessage in ContentSuggestions(a, Rounded(DetailedScores(a)))
  {
    var wordCount := a.readability.wordCount.GetOr(0);
    RatedScore(a, 6);
    ContentLengthValues(wordCount);
    Round1Within(ContentLengthScore(wordCount), 0, 40);
  }

  /** the score a rated analysis reports for the i-th criterion */
  lemma RatedScore(a: Analysis, i: nat)
    requires i < |CriterionOrder|
    ensures ScoreOf(Rounded(DetailedScores(a)), CriterionOrder[i]) == Round1(CriterionScore(a, CriterionOrder[i]))
  {
    var ds := Rounded(DetailedScores(a));
    assert Keys(ds) == CriterionOrder;
    LookupAt(ds, i);
  }

  // ---------------------------------------------------------------- formatting and enhancement tips

  const FormattingOpen := "\U{1F3A8} **Formatting**: "

  function FormattingMessage(tip: string): string {
    FormattingOpen + tip
  }

  function FormattingChunk(i: nat, tip: string): seq<string> {
    [FormattingMessage(tip)]
  }

  /** random.sample(self.formatting_suggestions, 3) */
  function ChosenTips(sys: System, rnd: Stream): seq<string> {
    Sample(sys.formattingSuggestions, 3, rnd, 0)
  }

  function FormattingSuggestions(sys: System, rnd: Stream): seq<string> {
    Collect(ChosenTips(sys, rnd), |ChosenTips(sys, rnd)|, FormattingChunk)
  }

  /** The scores are not consulted: three tips are always given. */
  method GenerateFormattingSuggestions(sys: System, rnd: Stream) returns (suggestions: seq<string>)
    ensures suggestions == FormattingSuggestions(sys, rnd)
  {
    var tips := ChosenTips(sys, rnd);
    suggestions := AdviseFormatting(tips);
  }

  /** the loop over the sampled tips */
  method AdviseFormatting(tips: seq<string>) returns (suggestions: seq<string>)
    ensures suggestions == Collect(tips, |tips|, FormattingChunk)
  {
    suggestions := [];
    for i := 0 to |tips|
      invariant suggestions == Collect(tips, i, FormattingChunk)
    {
      suggestions := suggestions + [FormattingMessage(tips[i])];
    }
  }

  /** Three formatting messages, each for a tip of the table. */
  lemma FormattingSpec(sys: System, rnd: Stream)
    ensures |FormattingSuggestions(sys, rnd)| == 3
    ensures forall k :: 0 <= k < 3 ==>
              ChosenTips(sys, rnd)[k] in sys.formattingSuggestions &&
              FormattingSuggestions(sys, rnd)[k] == FormattingMessage(ChosenTips(sys, rnd)[k])
  {
    var tips := ChosenTips(sys, rnd);
    CollectSingles(tips, |tips|, FormattingChunk);
    forall k | 0 <= k < 3 ensures tips[k] in sys.formattingSuggestions {
      assert tips[k] in multiset(tips);
    }
  }

  const VerbsOpen := "\U{1F4AA} **Action Verbs**: Start bullet points with strong verbs like: "
  const MetricsOpen := "\U{1F4CA} **Quantify Achievements**: Include specific metrics and numbers (e.g., "
  const MetricsSeparator := " | "
  const MetricsClose := ")"

  function VerbsMessage(verbs: seq<string>): string {
    VerbsOpen + Join(verbs, ListSeparator)
  }

  function MetricsMessage(examples: seq<string>): string {
    MetricsOpen + Join(examples, MetricsSeparator) + MetricsClose
  }

  /** a tip naming four of the action verbs (all of them when there are fewer), drawn without
      replacement */
  ghost predicate VerbsTip(sys: System, t: string) {
    exists v :: t == VerbsMessage(v) && multiset(v) <= multiset(sys.actionVerbs) &&
      |v| == (if 4 <= |sys.actionVerbs| then 4 else |sys.actionVerbs|)
  }

  /** a tip quoting three of the metrics examples (all of them when there are fewer), drawn
      without replacement */
  ghost predicate MetricsTip(sys: System, t: string) {
    exists m :: t == MetricsMessage(m) && multiset(m) <= multiset(sys.metricsExamples) &&
      |m| == (if 3 <= |sys.metricsExamples| then 3 else |sys.metricsExamples|)
  }

  /** the action verbs tip, then the metrics tip */
  function EnhancementTips(sys: System, rnd: Stream): (r: seq<string>)
    ensures |r| == 2
  {
    [VerbsMessage(Sample(sys.actionVerbs, 4, rnd, 0)), MetricsMessage(Sample(sys.metricsExamples, 3, rnd, 4))]
  }

  /** The content enhancement tips are the action verbs tip and then the metrics tip, over
      verbs and examples sampled without replacement. */
  lemma EnhancementTipsSpec(sys: System, rnd: Stream)
    ensures |EnhancementTips(sys, rnd)| == 2
    ensures VerbsTip(sys, EnhancementTips(sys, rnd)[0])
    ensures MetricsTip(sys, EnhancementTips(sys, rnd)[1])
  {
    var v := Sample(sys.actionVerbs, 4, rnd, 0);
    var m := Sample(sys.metricsExamples, 3, rnd, 4);
    assert multiset(v) <= multiset(sys.actionVerbs);
    assert multiset(m) <= multiset(sys.metricsExamples);
  }

  method GenerateContentEnhancementTips(sys: System, rnd: Stream) returns (suggestions: seq<string>)
    ensures suggestions == EnhancementTips(sys, rnd)
  {
    var verbs := Sample(sys.actionVerbs, 4, rnd, 0);
    var examples := Sample(sys.metricsExamples, 3, rnd, 4);
    suggestions := [VerbsMessage(verbs), MetricsMessage(examples)];
  }

  // ---------------------------------------------------------------- generate_priority_suggestions

  datatype Tiers = Tiers(critical: seq<string>, important: seq<string>, enhancement: seq<string>)

  /** the stream of the k-th generator call of one run: 1 the important section advice,
      2 the formatting tips, 3 the enhancement tips, 4 to 6 the order of the three
      deduplicated tiers, 8 + i the advice for the i-th improvement priority */
  type Calls = nat -> Stream

  /** which generator a priority's name selects */
  datatype Generator = SkillsGenerator | SectionsGenerator | ContentGenerator | NoGenerator

  // the words of a priority's name that select a generator
  const SkillsWord := "skills"
  const SectionWord := "section"
  const ContentWord := "content"
  const ReadabilityWord := "readability"

  /** the dispatch on the lower-cased name of an improvement priority */
  function GeneratorFor(name: string): Generator {
    var l := Lower(name);
    if Contains(l, SkillsWord) then SkillsGenerator
    else if Contains(l, SectionWord) then SectionsGenerator
    else if Contains(l, ContentWord) || Contains(l, ReadabilityWord) then ContentGenerator
    else NoGenerator
  }

  /** the generator each improvement priority's name selects: none for contact details or
      projects, whose critical advice is therefore empty */
  function PriorityGenerator(c: Criterion): Generator {
    match c
    case SkillsDiversity => SkillsGenerator
    case SkillsQuantity => SkillsGenerator
    case SectionsCompleteness => SectionsGenerator
    case TextReadability => ContentGenerator
    case ContentLength => ContentGenerator
    case ContactCompleteness => NoGenerator
    case ProjectQuality => NoGenerator
  }

  /** The name of each improvement priority selects its generator: the lower-cased name is the
      key with spaces for underscores, and no word GeneratorFor looks for holds either. */
  lemma PriorityDispatch(c: Criterion)
    ensures GeneratorFor(CriterionName(c)) == PriorityGenerator(c)
  {
    KeyWords(c);
    KeyDispatch(Key(c));
  }

  /** GeneratorFor read on a key rather than on its display name */
  function KeyGenerator(key: string): Generator {
    if Contains(key, SkillsWord) then SkillsGenerator
    else if Contains(key, SectionWord) then SectionsGenerator
    else if Contains(key, ContentWord) || Contains(key, ReadabilityWord) then ContentGenerator
    else NoGenerator
  }

  predicate SnakeCase(key: string) {
    forall i :: 0 <= i < |key| ==> IsLower(key[i]) || key[i] == '_'
  }

  lemma KeyDispatch(key: string)
    requires SnakeCase(key)
    ensures GeneratorFor(DisplayName(key)) == KeyGenerator(key)
  {
    LowerDisplayName(key);
    ReplaceCharContains(key, '_', ' ', SkillsWord);
    ReplaceCharContains(key, '_', ' ', SectionWord);
    ReplaceCharContains(key, '_', ' ', ContentWord);
    ReplaceCharContains(key, '_', ' ', ReadabilityWord);
  }

  /** each criterion key is in snake case and holds the word of its generator */
  lemma KeyWords(c: Criterion)
    ensures SnakeCase(Key(c)) && KeyGenerator(Key(c)) == PriorityGenerator(c)
  {
    match c
    case SkillsDiversity => SkillsKey(Key(c));
    case SkillsQuantity => SkillsKey(Key(c));
    case SectionsCompleteness => SectionsKey(Key(c));
    case TextReadability => ReadabilityKey(Key(c));
    case ContentLength => ContentLengthKey(Key(c));
    case ContactCompleteness => ContactKey(Key(c));
    case ProjectQuality => ProjectKey(Key(c));
  }

  lemma SkillsKey(key: string)
    requires key == "skills_diversity" || key == "skills_quantity"
    ensures SnakeCase(key)
    ensures Contains(key, SkillsWord)
  {
    PrefixContained(key, SkillsWord);
  }

  lemma SectionsKey(key: string)
    requires key == "sections_completeness"
    ensures SnakeCase(key)
    ensures !Contains(key, SkillsWord)
    ensures Contains(key, SectionWord)
  {
    assert SkillsWord[1] !in key;
    AbsentCharNotContained(key, SkillsWord, 1);
    assert !Contains(key, SkillsWord);
    PrefixContained(key, SectionWord);
  }

  lemma ReadabilityKey(key: string)
    requires key == "readability"
    ensures SnakeCase(key)
    ensures !Contains(key, SkillsWord)
    ensures !Contains(key, SectionWord)
    ensures Contains(key, ReadabilityWord)
  {
    AbsentCharNotContained(key, SkillsWord, 0);
    AbsentCharNotContained(key, SectionWord, 0);
    PrefixContained(key, ReadabilityWord);
  }

  lemma ContentLengthKey(key: string)
    requires key == "content_length"
    ensures SnakeCase(key)
    ensures !Contains(key, SkillsWord)
    ensures !Contains(key, SectionWord)
    ensures Contains(key, ContentWord)
  {
    AbsentCharNotContained(key, SkillsWord, 1);
    AbsentCharNotContained(key, SectionWord, 4);
    PrefixContained(key, ContentWord);
  }

  /** "contact" and "content" agree only up to "cont" */
  lemma ContactKey(key: string)
    requires key == "contact_completeness"
    ensures SnakeCase(key)
    ensures !Contains(key, SkillsWord)
    ensures !Contains(key, SectionWord)
    ensures !Contains(key, ContentWord)
    ensures !Contains(key, ReadabilityWord)
  {
    ContactNotOthers(key);
    ContactNotContent(key);
  }

  lemma ContactNotOthers(key: string)
    requires key == "contact_completeness"
    ensures !Contains(key, SkillsWord)
    ensures !Contains(key, SectionWord)
    ensures !Contains(key, ReadabilityWord)
  {
    AbsentCharNotContained(key, SkillsWord, 1);
    AbsentCharNotContained(key, SectionWord, 4);
    AbsentCharNotContained(key, ReadabilityWord, 0);
  }

  lemma ContactNotContent(key: string)
    requires key == "contact_completeness"
    ensures !Contains(key, ContentWord)
  {
    NoContentWindow(key);
  }

  /** In a key of 20 characters whose first 'e' is at index 13 and with no 'n' among indices
      11 to 15, no window of "content" fits: its 'e' would put its 'n' among those indices. */
  lemma NoContentWindow(key: string)
    requires |key| == 20
    requires forall i :: 0 <= i < 13 ==> key[i] != 'e'
    requires forall i :: 11 <= i < 16 ==> key[i] != 'n'
    ensures !Contains(key, ContentWord)
  {
    forall k: nat | k + 7 <= |key| ensures !OccursAt(key, ContentWord, k) {
      if k + 4 < 13 {
        assert key[k..k + 7][4] != ContentWord[4];
      } else {
        assert key[k..k + 7][2] != ContentWord[2];
      }
    }
  }

  lemma ProjectKey(key: string)
    requires key == "project_quality"
    ensures SnakeCase(key)
    ensures !Contains(key, SkillsWord)
    ensures !Contains(key, SectionWord)
    ensures !Contains(key, ContentWord)
    ensures !Contains(key, ReadabilityWord)
  {
    AbsentCharNotContained(key, SkillsWord, 0);
    AbsentCharNotContained(key, SectionWord, 0);
    AbsentCharNotContained(key, ContentWord, 2);
    AbsentCharNotContained(key, ReadabilityWord, 5);
  }

  /** the first two suggestions of a generator */
  function GeneratorAdvice(sys: System, g: Generator, a: Analysis, ds: Scores, rnd: Stream): (r: seq<string>)
    ensures |r| <= 2
  {
    match g
    case SkillsGenerator => Take(SkillSuggestions(sys, a.skills, ds, rnd), 2)
    case SectionsGenerator => Take(SectionSuggestions(sys, a.sections, ds, rnd), 2)
    case ContentGenerator => Take(ContentSuggestions(a, ds), 2)
    case NoGenerator => []
  }

  /** the critical advice for one improvement priority: the first two of its generator's */
  function CriticalFor(sys: System, name: string, a: Analysis, ds: Scores, rnd: Stream): (r: seq<string>)
    ensures |r| <= 2
  {
    GeneratorAdvice(sys, GeneratorFor(name), a, ds, rnd)
  }

  function CriticalChunk(sys: System, a: Analysis, ds: Scores, calls: Calls): (nat, string) -> seq<string> {
    (i: nat, name: string) => CriticalFor(sys, name, a, ds, calls(8 + i))
  }

  function RawCritical(sys: System, priorities: seq<string>, a: Analysis, ds: Scores, calls: Calls): seq<string> {
    Collect(priorities, |priorities|, CriticalChunk(sys, a, ds, calls))
  }

  function RawImportant(sys: System, a: Analysis, ds: Scores, calls: Calls): seq<string> {
    Slice(ContentSuggestions(a, ds), 2, 4) + Slice(SectionSuggestions(sys, a.sections, ds, calls(1)), 2, 4)
  }

  function RawEnhancement(sys: System, calls: Calls): seq<string> {
    Take(FormattingSuggestions(sys, calls(2)), 2) + Take(EnhancementTips(sys, calls(3)), 3)
  }

  predicate NonBlank(s: string) {
    s != ""
  }

  /** list(set(filter(None, xs))), the set's order drawn from `order` */
  function Unique(xs: seq<string>, order: Stream): seq<string> {
    var u := Dedup(Filter(xs, NonBlank));
    Sample(u, |u|, order, 0)
  }

  /** rating_result.get('improvement_priority', []) */
  function PriorityNames(r: RatingResult): seq<string> {
    if r.Rated? then r.improvementPriority else []
  }

  function PrioritySuggestions(sys: System, a: Analysis, r: RatingResult, calls: Calls): Tiers {
    var ds := r.detailedScores;
    Tiers(Unique(RawCritical(sys, PriorityNames(r), a, ds, calls), calls(4)),
          Unique(RawImportant(sys, a, ds, calls), calls(5)),
          Unique(RawEnhancement(sys, calls), calls(6)))
  }

  method GeneratePrioritySuggestions(sys: System, a: Analysis, r: RatingResult, calls: Calls) returns (t: Tiers)
    ensures t == PrioritySuggestions(sys, a, r, calls)
  {
    var ds := r.detailedScores;
    var critical := AdviseCritical(sys, PriorityNames(r), a, ds, calls);
    var important := AdviseImportant(sys, a, ds, calls);
    var enhancement := AdviseEnhancement(sys, calls);
    t := Tiers(Unique(critical, calls(4)), Unique(important, calls(5)), Unique(enhancement, calls(6)));
  }

  /** list(set(...)) of the non-blank suggestions: no repeats, exactly the non-blank ones, each
      suggestion once, in some order. */
  lemma UniqueSpec(xs: seq<string>, order: Stream)
    ensures Distinct(Unique(xs, order))
    ensures forall x :: x in Unique(xs, order) <==> x in xs && x != ""
    ensures multiset(Unique(xs, order)) == multiset(Dedup(Filter(xs, NonBlank)))
    ensures |Unique(xs, order)| <= |xs|
  {
    var u := Dedup(Filter(xs, NonBlank));
    ShuffleIsPermutation(u, order, 0);
    SampleDistinct(u, |u|, order, 0);
    var r := Unique(xs, order);
    forall x ensures x in r <==> x in u {
      assert x in r <==> x in multiset(r);
      assert x in u <==> x in multiset(u);
    }
  }

  /** Deduplicating again changes nothing but the order. */
  lemma UniqueIdempotent(xs: seq<string>, order: Stream, again: Stream)
    ensures multiset(Unique(Unique(xs, order), again)) == multiset(Unique(xs, order))
  {
    var r := Unique(xs, order);
    UniqueSpec(xs, order);
    UniqueSpec(r, again);
    FilterAll(r, NonBlank);
    DedupDistinct(r);
  }

  /** The critical advice holds at most two suggestions per improvement priority. */
  lemma RawCriticalBound(sys: System, priorities: seq<string>, a: Analysis, ds: Scores, calls: Calls)
    ensures |RawCritical(sys, priorities, a, ds, calls)| <= 2 * |priorities|
  {
    var chunk := CriticalChunk(sys, a, ds, calls);
    forall i | 0 <= i < |priorities| ensures |chunk(i, priorities[i])| <= 2 {
      CriticalChunkAt(sys, a, ds, calls, i, priorities[i]);
    }
    CollectLength(priorities, |priorities|, chunk, 2);
  }

  /** The enhancement advice always holds both content enhancement tips: the action verbs and
      the metrics. */
  lemma VerbsTipEnhances(sys: System, calls: Calls)
    ensures VerbsMessage(Sample(sys.actionVerbs, 4, calls(3), 0)) in RawEnhancement(sys, calls)
    ensures MetricsMessage(Sample(sys.metricsExamples, 3, calls(3), 4)) in RawEnhancement(sys, calls)
    ensures |RawEnhancement(sys, calls)| <= 4
  {
    var tips := EnhancementTips(sys, calls(3));
    assert Take(tips, 3) == tips;
    assert tips[0] in Take(tips, 3);
    assert tips[1] in Take(tips, 3);
  }

  /** Each tier has no repeats and no blank suggestion; the critical tier holds at most two
      suggestions per improvement priority (so at most six), the important tier at most four,
      and the enhancement tier one to four, always including the action verbs tip. */
  lemma TiersSpec(sys: System, a: Analysis, r: RatingResult, calls: Calls)
    ensures var t := PrioritySuggestions(sys, a, r, calls);
            && Distinct(t.critical) && Distinct(t.important) && Distinct(t.enhancement)
            && "" !in t.critical && "" !in t.important && "" !in t.enhancement
            && |t.critical| <= 2 * |PriorityNames(r)|
            && |t.important| <= 4
            && 1 <= |t.enhancement| <= 4
            && VerbsMessage(Sample(sys.actionVerbs, 4, calls(3), 0)) in t.enhancement
  {
    var ds := r.detailedScores;
    var names := PriorityNames(r);
    var critical := RawCritical(sys, names, a, ds, calls);
    var enhancement := RawEnhancement(sys, calls);
    UniqueSpec(critical, calls(4));
    UniqueSpec(RawImportant(sys, a, ds, calls), calls(5));
    UniqueSpec(enhancement, calls(6));
    RawCriticalBound(sys, names, a, ds, calls);
    VerbsTipEnhances(sys, calls);
    assert VerbsMessage(Sample(sys.actionVerbs, 4, calls(3), 0)) != "" by {
      assert |VerbsOpen| > 0;
    }
  }

  /** The rated analysis has at most three priorities, so the critical tier holds at most six. */
  lemma CriticalAtMostSix(sys: System, a: Analysis, calls: Calls)
    ensures |PrioritySuggestions(sys, a, Rate(a), calls).critical| <= 6
  {
    RateSpec(a);
    TiersSpec(sys, a, Rate(a), calls);
  }

  /** the loop over the improvement priorities */
  method AdviseCritical(sys: System, priorities: seq<string>, a: Analysis, ds: Scores, calls: Calls)
    returns (critical: seq<string>)
    ensures critical == RawCritical(sys, priorities, a, ds, calls)
  {
    critical := [];
    for i := 0 to |priorities|
      invariant critical == Collect(priorities, i, CriticalChunk(sys, a, ds, calls))
    {
      var advice := CriticalEntry(sys, priorities[i], a, ds, calls(8 + i));
      CriticalChunkAt(sys, a, ds, calls, i, priorities[i]);
      critical := critical + advice;
    }
  }

  lemma CriticalChunkAt(sys: System, a: Analysis, ds: Scores, calls: Calls, i: nat, p: string)
    ensures CriticalChunk(sys, a, ds, calls)(i, p) == CriticalFor(sys, p, a, ds, calls(8 + i))
  {
  }

  /** the critical advice for one improvement priority */
  method CriticalEntry(sys: System, priority: string, a: Analysis, ds: Scores, rnd: Stream)
    returns (advice: seq<string>)
    ensures advice == CriticalFor(sys, priority, a, ds, rnd)
  {
    advice := AdviseFrom(sys, GeneratorFor(priority), a, ds, rnd);
  }

  method AdviseFrom(sys: System, g: Generator, a: Analysis, ds: Scores, rnd: Stream) returns (advice: seq<string>)
    ensures advice == GeneratorAdvice(sys, g, a, ds, rnd)
  {
    match g
    case SkillsGenerator =>
      var s := GenerateSkillSuggestions(sys, a.skills, ds, rnd);
      advice := Take(s, 2);
    case SectionsGenerator =>
      var s := GenerateSectionSuggestions(sys, a.sections, ds, rnd);
      advice := Take(s, 2);
    case ContentGenerator =>
      var s := GenerateContentSuggestions(a, ds);
      advice := Take(s, 2);
    case NoGenerator =>
      advice := [];
  }

  method AdviseImportant(sys: System, a: Analysis, ds: Scores, calls: Calls) returns (important: seq<string>)
    ensures important == RawImportant(sys, a, ds, calls)
  {
    var content := GenerateContentSuggestions(a, ds);
    var sections := GenerateSectionSuggestions(sys, a.sections, ds, calls(1));
    important := Slice(content, 2, 4) + Slice(sections, 2, 4);
  }

  method AdviseEnhancement(sys: System, calls: Calls) returns (enhancement: seq<string>)
    ensures enhancement == RawEnhancement(sys, calls)
  {
    var formatting := GenerateFormattingSuggestions(sys, calls(2));
    var tips := GenerateContentEnhancementTips(sys, calls(3));
    enhancement := Take(formatting, 2) + Take(tips, 3);
  }

  // ---------------------------------------------------------------- generate_improvement_action_plan

  datatype PlanEntry = PlanEntry(priority: string, timeline: string, items: seq<string>, impact: string)

  const HighPlan := PlanEntry("High Priority", "Complete within 1-2 days", [],
                             "These changes will significantly improve your resume score")
  const MediumPlan := PlanEntry("Medium Priority", "Complete within 1 week", [],
                               "These improvements will make your resume more competitive")
  const LowPlan := PlanEntry("Low Priority", "Complete when you have time", [],
                            "These refinements will polish your resume presentation")

  function HighEntry(items: seq<string>): PlanEntry {
    HighPlan.(items := items)
  }

  function MediumEntry(items: seq<string>): PlanEntry {
    MediumPlan.(items := items)
  }

  function LowEntry(items: seq<string>): PlanEntry {
    LowPlan.(items := items)
  }

  function ActionPlan(t: Tiers): seq<PlanEntry> {
    (if t.critical != [] then [HighEntry(Take(t.critical, 3))] else []) +
    (if t.important != [] then [MediumEntry(Take(t.important, 3))] else []) +
    (if t.enhancement != [] then [LowEntry(Take(t.enhancement, 3))] else [])
  }

  method GenerateImprovementActionPlan(t: Tiers) returns (plan: seq<PlanEntry>)
    ensures plan == ActionPlan(t)
  {
    var high: seq<PlanEntry> := [];
    if t.critical != [] {
      high := [HighEntry(Take(t.critical, 3))];
    }
    var medium: seq<PlanEntry> := [];
    if t.important != [] {
      medium := [MediumEntry(Take(t.important, 3))];
    }
    var low: seq<PlanEntry> := [];
    if t.enhancement != [] {
      low := [LowEntry(Take(t.enhancement, 3))];
    }
    plan := high + medium + low;
  }

  function NonEmptyTiers(t: Tiers): nat {
    (if t.critical != [] then 1 else 0) + (if t.important != [] then 1 else 0) +
    (if t.enhancement != [] then 1 else 0)
  }

  /** One entry per non-empty tier, high before medium before low, each listing the first
      three suggestions of its tier. */
  lemma ActionPlanSpec(t: Tiers)
    ensures |ActionPlan(t)| == NonEmptyTiers(t)
    ensures forall e :: e in ActionPlan(t) ==> 1 <= |e.items| <= 3
    ensures t.critical != [] ==> ActionPlan(t)[0] == HighEntry(Take(t.critical, 3))
    ensures t.important != [] ==>
              ActionPlan(t)[if t.critical != [] then 1 else 0] == MediumEntry(Take(t.important, 3))
    ensures t.enhancement != [] ==> ActionPlan(t)[|ActionPlan(t)| - 1] == LowEntry(Take(t.enhancement, 3))
  {
  }

  // ---------------------------------------------------------------- generate_suggestions

  datatype Report = Report(suggestionsByPriority: Tiers, actionPlan: seq<PlanEntry>, totalSuggestions: nat)

  function TotalSuggestions(t: Tiers): nat {
    |t.critical| + |t.important| + |t.enhancement|
  }

  /** generate_suggestions, run by the system it builds (DefaultSystem, which DefaultSystemValid
      shows to be a System): the tiers, their action plan and the number of suggestions */
  method GenerateSuggestions(sys: System, a: Analysis, r: RatingResult, calls: Calls) returns (report: Report)
    ensures report.suggestionsByPriority == PrioritySuggestions(sys, a, r, calls)
    ensures report.actionPlan == ActionPlan(report.suggestionsByPriority)
    ensures report.totalSuggestions == TotalSuggestions(report.suggestionsByPriority)
  {
    var tiers := GeneratePrioritySuggestions(sys, a, r, calls);
    var plan := GenerateImprovementActionPlan(tiers);
    report := Report(tiers, plan, |tiers.critical| + |tiers.important| + |tiers.enhancement|);
  }

  /** Every run yields at least one suggestion, and the plan ends with the low-priority entry. */
  lemma ReportNonEmpty(sys: System, a: Analysis, r: RatingResult, calls: Calls)
    ensures var t := PrioritySuggestions(sys, a, r, calls);
            && TotalSuggestions(t) >= 1
            && ActionPlan(t) != []
            && ActionPlan(t)[|ActionPlan(t)| - 1] == LowEntry(Take(t.enhancement, 3))
  {
    var t := PrioritySuggestions(sys, a, r, calls);
    TiersSpec(sys, a, r, calls);
    ActionPlanSpec(t);
  }
}
