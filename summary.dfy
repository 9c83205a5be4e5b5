/** The professional summary generator (src/summary_generator.py). It guesses a role from
    keyword scores and an experience level from stated years, job-title words or the amount
    of content. It then fills a randomly chosen template and cuts the result to at most two
    sentences. */
module SummaryGenerator {
  import opened Common
  import opened Random
  import opened Analyzer

  // ---------------------------------------------------------------- tables

  datatype Level = Senior | Mid | Entry

  datatype TemplateCategory = Experienced | EntryLevel | CareerChange

  /** the placeholders of the summary templates */
  datatype Field =
    Role | Seniority | Expertise | Years | SkillList | Specializations | Achievement
    | EducationName | ProjectsLine | FieldName | NewField

  /** a template as str.format reads it: literal text and named placeholders */
  datatype Piece = Text(text: string) | Slot(field: Field)

  type Template = seq<Piece>

  /** the tables a SummaryGenerator is built with: three templates per category, the
      keywords of each role (a dict, in insertion order), the job-title words of each
      experience level, the achievement phrases and the specialisation of each skill
      category */
  datatype SummaryTables = SummaryTables(
    experienced: seq<Template>, entryLevel: seq<Template>, careerChange: seq<Template>,
    roleKeywords: seq<(string, seq<string>)>,
    seniorIndicators: seq<string>, midIndicators: seq<string>, juniorIndicators: seq<string>,
    achievements: seq<string>,
    specializationMapping: seq<(string, string)>)
  {
    /** self.templates[category] */
    function TemplatesOf(c: TemplateCategory): seq<Template> {
      match c
      case Experienced => experienced
      case EntryLevel => entryLevel
      case CareerChange => careerChange
    }

    /** what random.choice relies on: every list it draws from has an element */
    predicate Valid() {
      |experienced| > 0 && |entryLevel| > 0 && |careerChange| > 0 && |achievements| > 0
    }
  }

  type Tables = t: SummaryTables | t.Valid()
    witness SummaryTables([[]], [[]], [[]], [], [], [], [], [""], [])

  /** the tables SummaryGenerator() is built with */
  const DefaultTables: SummaryTables := SummaryTables(
    DefaultExperiencedTemplates, DefaultEntryLevelTemplates, DefaultCareerChangeTemplates,
    DefaultRoleKeywords,
    DefaultSeniorIndicators, DefaultMidIndicators, DefaultJuniorIndicators,
    DefaultAchievements, DefaultSpecializationMapping)

  const DefaultExperiencedTemplates: seq<Template> :=
    [ [Slot(Seniority), Text(" "), Slot(Role), Text(" with "), Slot(Years), Text(" of experience in "),
       Slot(SkillList), Text(". "), Slot(Achievement), Text(" and expertise in "), Slot(Specializations),
       Text(".")],
      [Slot(Expertise), Text(" "), Slot(Role), Text(" specializing in "), Slot(SkillList), Text(" with "),
       Slot(Years), Text(" of proven experience. "), Slot(Achievement), Text(" and strong background in "),
       Slot(Specializations), Text(".")],
      [Text("Results-driven "), Slot(Role), Text(" with "), Slot(Years), Text(" of experience in "),
       Slot(SkillList), Text(". "), Slot(Achievement), Text(" and demonstrated expertise in "),
       Slot(Specializations), Text(".")] ]

  const DefaultEntryLevelTemplates: seq<Template> :=
    [ [Text("Recent "), Slot(EducationName), Text(" graduate with strong foundation in "), Slot(SkillList),
       Text(". "), Slot(ProjectsLine), Text(" and eager to contribute to "), Slot(FieldName),
       Text(" initiatives.")],
      [Text("Motivated "), Slot(EducationName), Text(" professional with expertise in "), Slot(SkillList),
       Text(". "), Slot(ProjectsLine), Text(" and passionate about "), Slot(FieldName), Text(" innovation.")],
      [Text("Dedicated "), Slot(EducationName), Text(" graduate specializing in "), Slot(SkillList),
       Text(". "), Slot(ProjectsLine), Text(" and committed to delivering high-quality "), Slot(FieldName),
       Text(" solutions.")] ]

  const DefaultCareerChangeTemplates: seq<Template> :=
    [ [Text("Versatile professional transitioning to "), Slot(NewField), Text(" with transferable skills in "),
       Slot(SkillList), Text(". "), Slot(Seniority), Text(" and strong foundation in "), Slot(Specializations),
       Text(".")],
      [Text("Dynamic professional pivoting to "), Slot(NewField), Text(" with proven experience in "),
       Slot(SkillList), Text(". "), Slot(Achievement), Text(" and adaptable approach to "),
       Slot(Specializations), Text(".")],
      [Text("Results-oriented professional expanding into "), Slot(NewField), Text(" with expertise in "),
       Slot(SkillList), Text(". "), Slot(Seniority), Text(" and commitment to "), Slot(Specializations),
       Text(".")] ]

  const DefaultRoleKeywords: seq<(string, seq<string>)> :=
    [ ("Software Engineer", ["programming", "coding", "software", "development", "engineer"]),
      ("Data Scientist", ["data", "analytics", "machine learning", "statistics", "science"]),
      ("Product Manager", ["product", "management", "strategy", "roadmap", "stakeholder"]),
      ("Marketing Manager", ["marketing", "digital", "campaign", "brand", "advertising"]),
      ("Business Analyst", ["business", "analysis", "requirements", "process", "analyst"]),
      ("DevOps Engineer", ["devops", "infrastructure", "cloud", "automation", "deployment"]),
      ("UI/UX Designer", ["design", "user experience", "interface", "wireframe", "prototype"]),
      ("Project Manager", ["project", "management", "agile", "scrum", "coordination"]),
      ("Full Stack Developer", ["fullstack", "frontend", "backend", "web development"]),
      ("Mobile Developer", ["mobile", "android", "ios", "app development"]),
      ("Cybersecurity Analyst", ["security", "cybersecurity", "vulnerability", "threat"]),
      ("Quality Assurance", ["testing", "qa", "quality", "automation testing"]) ]

  const DefaultSeniorIndicators: seq<string> :=
    ["senior", "lead", "principal", "architect", "manager", "director"]

  const DefaultMidIndicators: seq<string> :=
    ["developer", "engineer", "analyst", "specialist", "consultant"]

  const DefaultJuniorIndicators: seq<string> :=
    ["junior", "associate", "intern", "trainee", "entry"]

  const DefaultAchievements: seq<string> :=
    [ "Proven track record of delivering high-quality solutions",
      "Successfully completed multiple complex projects",
      "Demonstrated ability to work in fast-paced environments",
      "Strong problem-solving and analytical skills",
      "Excellent collaboration and communication abilities",
      "Committed to continuous learning and professional growth",
      "Experience working with cross-functional teams",
      "Passionate about creating innovative solutions" ]

  const DefaultSpecializationMapping: seq<(string, string)> :=
    [ ("programming_languages", "software development"),
      ("web_technologies", "web development"),
      ("databases", "database management"),
      ("cloud_platforms", "cloud computing"),
      ("data_science", "data analysis and machine learning"),
      ("mobile_development", "mobile application development"),
      ("devops_tools", "DevOps and automation"),
      ("design_tools", "UI/UX design"),
      ("project_management", "project management"),
      ("soft_skills", "team leadership and collaboration") ]

  /** The default tables can be drawn from, and none of their job-title words is empty. */
  lemma DefaultTablesValid()
    ensures DefaultTables.Valid()
    ensures TitleWordsNonEmpty(DefaultTables)
  {
  }

  /** every job-title word has a character, so an empty text mentions none */
  predicate TitleWordsNonEmpty(t: SummaryTables) {
    && (forall w :: w in t.seniorIndicators ==> w != "")
    && (forall w :: w in t.midIndicators ==> w != "")
    && (forall w :: w in t.juniorIndicators ==> w != "")
  }

  /** what generate_summary reads from the analysis dict: the error, the text (lower-cased
      where it is searched), the skill categories, the projects and the word count (0 when
      missing), and the matches of the four year patterns in the lower-cased text, as
      re.findall returns them, in pattern order */
  datatype SummaryInput = SummaryInput(
    error: Option<string>, text: string, skills: SkillMap, projects: seq<string>,
    wordCount: nat, yearMatches: seq<seq<nat>>)

  // ---------------------------------------------------------------- _determine_role

  const ProfessionalRole := "Professional"

  /** ' '.join(skill_list).lower(), where a keyword earns a category bonus */
  function SkillText(list: seq<string>): string {
    Lower(Join(list, " "))
  }

  /** the bonus of 2 for each of the first n skill categories that mention the keyword */
  function CategoryBonus(skills: SkillMap, keyword: string, n: nat): nat
    requires n <= |skills|
  {
    if n == 0 then 0
    else CategoryBonus(skills, keyword, n - 1) + if Contains(SkillText(skills[n - 1].1), keyword) then 2 else 0
  }

  /** what one keyword adds to a role's score: 1 when the text mentions it, and its bonus */
  function KeywordPoints(text: string, skills: SkillMap, keyword: string): nat {
    (if Contains(text, keyword) then 1 else 0) + CategoryBonus(skills, keyword, |skills|)
  }

  /** the score of the first n keywords of a role */
  function RoleScore(text: string, skills: SkillMap, keywords: seq<string>, n: nat): nat
    requires n <= |keywords|
  {
    if n == 0 then 0 else RoleScore(text, skills, keywords, n - 1) + KeywordPoints(text, skills, keywords[n - 1])
  }

  /** role_scores, in the order of the role table */
  function RoleScores(roles: seq<(string, seq<string>)>, text: string, skills: SkillMap): (scores: seq<nat>)
    ensures |scores| == |roles|
  {
    seq(|roles|, i requires 0 <= i < |roles| => RoleScore(text, skills, roles[i].1, |roles[i].1|))
  }

  /** position b holds the largest score, and every position before it a smaller one */
  predicate IsFirstMax(scores: seq<nat>, b: nat) {
    && b < |scores|
    && (forall j :: 0 <= j < |scores| ==> scores[j] <= scores[b])
    && (forall j :: 0 <= j < b ==> scores[j] < scores[b])
  }

  /** the position max() picks among the first n scores: the first one holding the largest */
  function BestOf(scores: seq<nat>, n: nat): (b: nat)
    requires 0 < n <= |scores|
    ensures b < n
    ensures forall j :: 0 <= j < n ==> scores[j] <= scores[b]
    ensures forall j :: 0 <= j < b ==> scores[j] < scores[b]
  {
    if n == 1 then 0
    else
      var b := BestOf(scores, n - 1);
      if scores[n - 1] > scores[b] then n - 1 else b
  }

  /** _determine_role: the first role with the largest score, or "Professional" when no
      role scores */
  function RoleOf(t: SummaryTables, text: string, skills: SkillMap): (role: string)
    ensures var scores := RoleScores(t.roleKeywords, Lower(text), skills);
            (forall i :: 0 <= i < |scores| ==> scores[i] == 0) ==> role == ProfessionalRole
    ensures var scores := RoleScores(t.roleKeywords, Lower(text), skills);
            (exists i :: 0 <= i < |scores| && scores[i] > 0) ==>
              exists b: nat :: IsFirstMax(scores, b) && scores[b] > 0 && role == t.roleKeywords[b].0
  {
    var scores := RoleScores(t.roleKeywords, Lower(text), skills);
    if |scores| == 0 then ProfessionalRole
    else
      var b := BestOf(scores, |scores|);
      assert IsFirstMax(scores, b);
      if scores[b] > 0 then t.roleKeywords[b].0 else ProfessionalRole
  }

  method DetermineRole(t: SummaryTables, text: string, skills: SkillMap) returns (role: string)
    ensures role == RoleOf(t, text, skills)
  {
    var lower := Lower(text);
    var scores := ScoreRoles(t.roleKeywords, lower, skills);
    if |scores| == 0 {
      return ProfessionalRole;
    }
    var b := BestOf(scores, |scores|);
    role := if scores[b] > 0 then t.roleKeywords[b].0 else ProfessionalRole;
  }

  /** the loop over the roles, recording each one's score */
  method ScoreRoles(roles: seq<(string, seq<string>)>, text: string, skills: SkillMap)
    returns (scores: seq<nat>)
    ensures scores == RoleScores(roles, text, skills)
  {
    scores := [];
    for i := 0 to |roles|
      invariant |scores| == i
      invariant forall j :: 0 <= j < i ==> scores[j] == RoleScore(text, skills, roles[j].1, |roles[j].1|)
    {
      var score := ScoreRole(text, skills, roles[i].1);
      scores := scores + [score];
    }
  }

  /** the loop over one role's keywords */
  method ScoreRole(text: string, skills: SkillMap, keywords: seq<string>) returns (score: nat)
    ensures score == RoleScore(text, skills, keywords, |keywords|)
  {
    score := 0;
    for k := 0 to |keywords|
      invariant score == RoleScore(text, skills, keywords, k)
    {
      if Contains(text, keywords[k]) {
        score := score + 1;
      }
      var bonus := CountBonus(skills, keywords[k]);
      score := score + bonus;
    }
  }

  /** the loop over the skill categories for one keyword */
  method CountBonus(skills: SkillMap, keyword: string) returns (bonus: nat)
    ensures bonus == CategoryBonus(skills, keyword, |skills|)
  {
    bonus := 0;
    for c := 0 to |skills|
      invariant bonus == CategoryBonus(skills, keyword, c)
    {
      if Contains(SkillText(skills[c].1), keyword) {
        bonus := bonus + 2;
      }
    }
  }

  /** A keyword's points count the text once and every category that mentions it twice:
      they are bounded by 1 + 2 * (number of categories) and are at least 2 when some
      category mentions the keyword. */
  lemma {:induction false} CategoryBonusBounds(skills: SkillMap, keyword: string, n: nat)
    requires n <= |skills|
    ensures CategoryBonus(skills, keyword, n) <= 2 * n
    ensures (exists c :: 0 <= c < n && Contains(SkillText(skills[c].1), keyword)) <==>
              CategoryBonus(skills, keyword, n) > 0
  {
    if n > 0 {
      CategoryBonusBounds(skills, keyword, n - 1);
    }
  }

  // ---------------------------------------------------------------- _estimate_experience_level

  /** the (level, years description) pair */
  datatype Estimate = Estimate(level: Level, years: string)

  const SeniorYears := "7+ years"
  const MidYears := "3-6 years"
  const JuniorYears := "1-2 years"
  const SomeYears := "3+ years"
  const RecentGraduate := "recent graduate"
  const PlusYearsSuffix := "+ years"
  const YearsSuffix := " years"

  /** years_found: the matches of every pattern, in pattern order */
  function Flatten(matches: seq<seq<nat>>): (years: seq<nat>)
    ensures forall y :: y in years <==> exists i :: 0 <= i < |matches| && y in matches[i]
  {
    if |matches| == 0 then []
    else
      var last := |matches| - 1;
      assert forall i :: 0 <= i < last ==> matches[..last][i] == matches[i];
      Flatten(matches[..last]) + matches[last]
  }

  /** max(years) */
  function MaxOf(years: seq<nat>): (m: nat)
    requires |years| > 0
    ensures m in years
    ensures forall y :: y in years ==> y <= m
  {
    if |years| == 1 then years[0]
    else
      var rest := MaxOf(years[1..]);
      assert years == [years[0]] + years[1..];
      if years[0] > rest then years[0] else rest
  }

  /** the estimate from the largest number of years stated */
  function FromYears(m: nat): Estimate {
    if m >= 7 then Estimate(Senior, NatToString(m) + PlusYearsSuffix)
    else if m >= 3 then Estimate(Mid, NatToString(m) + YearsSuffix)
    else Estimate(Entry, NatToString(m) + YearsSuffix)
  }

  /** the estimate from job-title words, levels tried in the order senior, mid, junior */
  function FromIndicators(t: SummaryTables, text: string): Option<Estimate> {
    if AnyIn(text, t.seniorIndicators) then Some(Estimate(Senior, SeniorYears))
    else if AnyIn(text, t.midIndicators) then Some(Estimate(Mid, MidYears))
    else if AnyIn(text, t.juniorIndicators) then Some(Estimate(Entry, JuniorYears))
    else None
  }

  /** word_count + 10 * skills_count + 20 * projects_count */
  function ComplexityScore(input: SummaryInput): nat {
    input.wordCount + 10 * SumLengths(input.skills) + 20 * |input.projects|
  }

  /** the estimate from the amount of content */
  function FromComplexity(score: nat): Estimate {
    if score > 500 then Estimate(Mid, SomeYears)
    else if score > 200 then Estimate(Entry, JuniorYears)
    else Estimate(Entry, RecentGraduate)
  }

  /** _estimate_experience_level: stated years first, then job-title words, then content */
  function ExperienceOf(t: SummaryTables, input: SummaryInput): Estimate {
    var years := Flatten(input.yearMatches);
    if |years| > 0 then FromYears(MaxOf(years))
    else
      match FromIndicators(t, Lower(input.text))
      case Some(e) => e
      case None => FromComplexity(ComplexityScore(input))
  }

  method EstimateExperience(t: SummaryTables, input: SummaryInput) returns (e: Estimate)
    ensures e == ExperienceOf(t, input)
  {
    var years := GatherYears(input.yearMatches);
    if |years| > 0 {
      return FromYears(MaxOf(years));
    }
    var byTitle := FromIndicators(t, Lower(input.text));
    if byTitle.Some? {
      return byTitle.value;
    }
    e := FromComplexity(ComplexityScore(input));
  }

  /** the loop over the year patterns, extending years_found with each one's matches */
  method GatherYears(matches: seq<seq<nat>>) returns (years: seq<nat>)
    ensures years == Flatten(matches)
  {
    years := [];
    for i := 0 to |matches|
      invariant years == Flatten(matches[..i])
    {
      assert matches[..i + 1][..i] == matches[..i];
      years := years + matches[i];
    }
    assert matches[..|matches|] == matches;
  }

  predicate IsDigits(s: string) {
    forall i :: 0 <= i < |s| ==> '0' <= s[i] <= '9'
  }

  function LevelRank(l: Level): nat {
    match l
    case Entry => 0
    case Mid => 1
    case Senior => 2
  }

  /** When years are stated, the largest decides: senior exactly when some stated number is
      at least 7, entry exactly when every one is below 3; and the description starts with
      the largest number, which reads back from it. */
  lemma StatedYearsDecide(t: SummaryTables, input: SummaryInput)
    requires Flatten(input.yearMatches) != []
    ensures var years := Flatten(input.yearMatches);
            var e := ExperienceOf(t, input);
            && (e.level == Senior <==> exists y :: y in years && y >= 7)
            && (e.level == Entry <==> forall y :: y in years ==> y < 3)
            && exists digits :: IsDigits(digits) && ParseDigits(digits) == MaxOf(years) &&
                 e.years == digits + (if e.level == Senior then PlusYearsSuffix else YearsSuffix)
  {
    var m := MaxOf(Flatten(input.yearMatches));
    ParseNatToString(m);
    var digits := NatToString(m);
    assert ExperienceOf(t, input).years == digits + (if m >= 7 then PlusYearsSuffix else YearsSuffix);
  }

  /** Without stated years, a senior job-title word wins over the others, a mid one over a
      junior one, and the content only decides when the text holds none of them. */
  lemma TitleWordsDecide(t: SummaryTables, input: SummaryInput)
    requires Flatten(input.yearMatches) == []
    ensures var text := Lower(input.text);
            var e := ExperienceOf(t, input);
            && (AnyIn(text, t.seniorIndicators) ==> e == Estimate(Senior, SeniorYears))
            && (!AnyIn(text, t.seniorIndicators) && AnyIn(text, t.midIndicators) ==> e == Estimate(Mid, MidYears))
            && (!AnyIn(text, t.seniorIndicators) && !AnyIn(text, t.midIndicators) && AnyIn(text, t.juniorIndicators)
                ==> e == Estimate(Entry, JuniorYears))
            && (!AnyIn(text, t.seniorIndicators) && !AnyIn(text, t.midIndicators) && !AnyIn(text, t.juniorIndicators)
                ==> e == FromComplexity(ComplexityScore(input)))
  {
  }

  /** More content never lowers the level the content fallback estimates, and it never
      estimates senior. */
  lemma ComplexityMonotone(a: nat, b: nat)
    requires a <= b
    ensures LevelRank(FromComplexity(a).level) <= LevelRank(FromComplexity(b).level)
    ensures FromComplexity(b).level != Senior
  {
  }

  // ---------------------------------------------------------------- _get_top_skills

  /** technical categories, drawn from before all others */
  const PriorityCategories: seq<string> :=
    ["programming_languages", "web_technologies", "databases", "cloud_platforms", "data_science",
     "mobile_development"]

  /** top_skills after the first k priority categories: up to 2 skills from each present one,
      while fewer than n are held */
  function PriorityPrefix(skills: SkillMap, cats: seq<string>, n: nat, k: nat): seq<string>
    requires k <= |cats|
  {
    if k == 0 then []
    else
      var top := PriorityPrefix(skills, cats, n, k - 1);
      if HasKey(skills, cats[k - 1]) && |top| < n then top + Take(Lookup(skills, cats[k - 1]), 2)
      else top
  }

  /** top_skills after filling from the first k skill categories outside the priority list */
  function FillPrefix(skills: SkillMap, cats: seq<string>, top: seq<string>, n: nat, k: nat): seq<string>
    requires k <= |skills|
  {
    if k == 0 then top
    else
      var held := FillPrefix(skills, cats, top, n, k - 1);
      if skills[k - 1].0 !in cats && |held| < n then held + Take(skills[k - 1].1, n - |held|)
      else held
  }

  /** _get_top_skills(skills, n) with the given priority categories */
  function TopSkillsOf(skills: SkillMap, cats: seq<string>, n: nat): seq<string> {
    var top := PriorityPrefix(skills, cats, n, |cats|);
    Take(if |top| < n then FillPrefix(skills, cats, top, n, |skills|) else top, n)
  }

  method TopSkills(skills: SkillMap, n: nat) returns (top: seq<string>)
    ensures top == TopSkillsOf(skills, PriorityCategories, n)
  {
    top := TakePriority(skills, PriorityCategories, n);
    if |top| < n {
      top := FillRemaining(skills, PriorityCategories, top, n);
    }
    top := Take(top, n);
  }

  /** the loop over the priority categories */
  method TakePriority(skills: SkillMap, cats: seq<string>, n: nat) returns (top: seq<string>)
    ensures top == PriorityPrefix(skills, cats, n, |cats|)
  {
    top := [];
    for k := 0 to |cats|
      invariant top == PriorityPrefix(skills, cats, n, k)
    {
      if HasKey(skills, cats[k]) && |top| < n {
        top := top + Take(Lookup(skills, cats[k]), 2);
      }
    }
  }

  /** the loop over the other categories, filling the remaining slots */
  method FillRemaining(skills: SkillMap, cats: seq<string>, top0: seq<string>, n: nat) returns (top: seq<string>)
    ensures top == FillPrefix(skills, cats, top0, n, |skills|)
  {
    top := top0;
    for k := 0 to |skills|
      invariant top == FillPrefix(skills, cats, top0, n, k)
    {
      if skills[k].0 !in cats && |top| < n {
        top := top + Take(skills[k].1, n - |top|);
      }
    }
  }

  /** Every skill the priority loop takes is one of the first two skills of a priority
      category that is present, and each category gives at most 2. */
  lemma {:induction false} PriorityPrefixSound(skills: SkillMap, cats: seq<string>, n: nat, k: nat)
    requires k <= |cats|
    ensures |PriorityPrefix(skills, cats, n, k)| <= 2 * k
    ensures forall x :: x in PriorityPrefix(skills, cats, n, k) ==>
              exists i :: 0 <= i < k && HasKey(skills, cats[i]) && x in Take(Lookup(skills, cats[i]), 2)
  {
    if k > 0 {
      PriorityPrefixSound(skills, cats, n, k - 1);
    }
  }

  /** Every skill the filling loop adds comes from a category outside the priority list. */
  lemma {:induction false} FillPrefixSound(skills: SkillMap, cats: seq<string>, top: seq<string>, n: nat, k: nat)
    requires k <= |skills|
    ensures forall x :: x in FillPrefix(skills, cats, top, n, k) ==>
              x in top || exists i :: 0 <= i < k && skills[i].0 !in cats && x in skills[i].1
  {
    if k > 0 {
      FillPrefixSound(skills, cats, top, n, k - 1);
    }
  }

  /** With no skills found, the priority loop takes nothing. */
  lemma {:induction false} PriorityPrefixEmpty(cats: seq<string>, n: nat, k: nat)
    requires k <= |cats|
    ensures PriorityPrefix([], cats, n, k) == []
  {
    if k > 0 {
      PriorityPrefixEmpty(cats, n, k - 1);
    }
  }

  /** At most n skills are chosen, each a skill found in some category, none for an empty
      skills map, and only priority skills when the priority categories already fill n. */
  lemma TopSkillsSpec(skills: SkillMap, cats: seq<string>, n: nat)
    ensures |TopSkillsOf(skills, cats, n)| <= n
    ensures forall x :: x in TopSkillsOf(skills, cats, n) ==> exists e :: e in skills && x in e.1
    ensures skills == [] ==> TopSkillsOf(skills, cats, n) == []
    ensures |PriorityPrefix(skills, cats, n, |cats|)| >= n ==>
              TopSkillsOf(skills, cats, n) == PriorityPrefix(skills, cats, n, |cats|)[..n]
  {
    var top := PriorityPrefix(skills, cats, n, |cats|);
    PriorityPrefixSound(skills, cats, n, |cats|);
    FillPrefixSound(skills, cats, top, n, |skills|);
    forall x | x in TopSkillsOf(skills, cats, n) ensures exists e :: e in skills && x in e.1 {
      if x in top {
        var i :| 0 <= i < |cats| && HasKey(skills, cats[i]) && x in Take(Lookup(skills, cats[i]), 2);
        LookupIn(skills, cats[i]);
      } else {
        var i :| 0 <= i < |skills| && skills[i].0 !in cats && x in skills[i].1;
        assert skills[i] in skills;
      }
    }
    if skills == [] {
      PriorityPrefixEmpty(cats, n, |cats|);
    }
  }

  // ---------------------------------------------------------------- _get_specializations

  /** the categories that earn a specialisation: at least 2 skills, and known to the mapping */
  predicate Specialised(mapping: seq<(string, string)>, e: (string, seq<string>)) {
    |e.1| >= 2 && HasKey(mapping, e.0)
  }

  /** the specialisation of a category the mapping knows */
  function MappedName(mapping: seq<(string, string)>, e: (string, seq<string>)): string {
    if HasKey(mapping, e.0) then Lookup(mapping, e.0) else ""
  }

  /** what the loop appends for one category */
  function SpecChunk(mapping: seq<(string, string)>): (nat, (string, seq<string>)) -> seq<string> {
    (i: nat, e: (string, seq<string>)) =>
      if Specialised(mapping, e) then [MappedName(mapping, e)] else []
  }

  function SpecializationsOf(mapping: seq<(string, string)>, skills: SkillMap): seq<string> {
    Take(Collect(skills, |skills|, SpecChunk(mapping)), 2)
  }

  method GetSpecializations(mapping: seq<(string, string)>, skills: SkillMap) returns (specs: seq<string>)
    ensures specs == SpecializationsOf(mapping, skills)
  {
    specs := [];
    for i := 0 to |skills|
      invariant specs == Collect(skills, i, SpecChunk(mapping))
    {
      if |skills[i].1| >= 2 && HasKey(mapping, skills[i].0) {
        specs := specs + [Lookup(mapping, skills[i].0)];
      }
    }
    specs := Take(specs, 2);
  }

  /** The specialisations are the first two mapped names of the categories with at least 2
      skills that the mapping knows, in the order of the skills map; so there are at most 2,
      each the mapped name of such a category. */
  lemma SpecializationsSpec(mapping: seq<(string, string)>, skills: SkillMap)
    ensures SpecializationsOf(mapping, skills) ==
              Take(Map(Filter(skills, e => Specialised(mapping, e)), e => MappedName(mapping, e)), 2)
    ensures |SpecializationsOf(mapping, skills)| <= 2
    ensures forall x :: x in SpecializationsOf(mapping, skills) ==>
              exists e :: e in skills && Specialised(mapping, e) && x == Lookup(mapping, e.0)
  {
    CollectGuarded(skills, |skills|, SpecChunk(mapping), e => Specialised(mapping, e),
                   e => MappedName(mapping, e));
    assert skills[..|skills|] == skills;
    var kept := Filter(skills, e => Specialised(mapping, e));
    var names := Map(kept, e => MappedName(mapping, e));
    forall x | x in SpecializationsOf(mapping, skills)
      ensures exists e :: e in skills && Specialised(mapping, e) && x == Lookup(mapping, e.0)
    {
      var j :| 0 <= j < |names| && names[j] == x;
      assert kept[j] in kept;
    }
  }

  // ---------------------------------------------------------------- _detect_education_level

  /** the keywords of each education level, tried in this order */
  const EducationLevels: seq<(string, seq<string>)> :=
    [ ("PhD", ["phd", "ph.d", "doctorate", "doctoral"]),
      ("Master's", ["masters", "master's", "mba", "ms", "m.s", "ma", "m.a"]),
      ("Bachelor's", ["bachelors", "bachelor's", "bs", "b.s", "ba", "b.a", "btech", "b.tech"]),
      ("Associate", ["associate", "associates", "aa", "as"]) ]

  /** any(found(keyword) for keyword in keywords) */
  predicate AnyFound(found: string -> bool, keywords: seq<string>) {
    exists k :: 0 <= k < |keywords| && found(keywords[k])
  }

  /** the first level with a keyword found */
  function FirstLevel(levels: seq<(string, seq<string>)>, found: string -> bool): (r: Option<string>)
    ensures r.None? <==> forall i :: 0 <= i < |levels| ==> !AnyFound(found, levels[i].1)
    ensures r.Some? ==> exists i :: && 0 <= i < |levels| && r.value == levels[i].0
                                    && AnyFound(found, levels[i].1)
                                    && forall j :: 0 <= j < i ==> !AnyFound(found, levels[j].1)
    decreases |levels|
  {
    if levels == [] then None
    else if AnyFound(found, levels[0].1) then Some(levels[0].0)
    else
      var r := FirstLevel(levels[1..], found);
      assert forall i :: 1 <= i < |levels| ==> levels[1..][i - 1] == levels[i];
      r
  }

  /** `keyword in text.lower()` */
  function Mentions(text: string): string -> bool {
    keyword => Contains(Lower(text), keyword)
  }

  /** _detect_education_level */
  function DetectEducationLevel(text: string): Option<string> {
    FirstLevel(EducationLevels, Mentions(text))
  }

  /** no keyword of any level is empty */
  predicate KeywordsNonEmpty(levels: seq<(string, seq<string>)>) {
    forall i, k :: 0 <= i < |levels| && 0 <= k < |levels[i].1| ==> levels[i].1[k] != []
  }

  /** An empty text names no level whose keywords are non-empty. */
  lemma NoLevelInEmptyText(levels: seq<(string, seq<string>)>)
    requires KeywordsNonEmpty(levels)
    ensures FirstLevel(levels, Mentions("")) == None
  {
    assert Lower("") == [];
    forall i | 0 <= i < |levels| ensures !AnyFound(Mentions(""), levels[i].1) {
      forall k | 0 <= k < |levels[i].1| ensures !Mentions("")(levels[i].1[k]) {
        ContainsInEmpty(levels[i].1[k]);
      }
    }
  }

  /** An empty text names no education level. */
  lemma NoEducationInEmptyText()
    ensures DetectEducationLevel("") == None
  {
    assert KeywordsNonEmpty(EducationLevels);
    NoLevelInEmptyText(EducationLevels);
  }

  /** Keywords are matched as substrings, so "ms" inside "systems" reads as a master's
      degree. */
  lemma EducationSubstringQuirk(text: string)
    requires text == "systems"
    ensures DetectEducationLevel(text) == Some("Master's")
  {
    assert Lower(text) == text;
    var phd := EducationLevels[0].1;
    forall k | 0 <= k < |phd| ensures !Mentions(text)(phd[k]) {
      AbsentCharNotContained(text, phd[k], 0);
    }
    assert OccursAt(text, "ms", 5);
    assert Mentions(text)(EducationLevels[1].1[3]);
    assert EducationLevels[1..][1..] == EducationLevels[2..];
  }

  // ---------------------------------------------------------------- _extract_projects_summary

  const NoProjectsLine := "Strong technical foundation"
  const OneProjectLine := "Demonstrated expertise through practical project implementation"
  const DeliveredOpen := "Successfully delivered "
  const DeliveredClose := " major projects"
  const PortfolioLine := "Extensive portfolio of successful project implementations"

  function ProjectsSummary(projects: seq<string>): string {
    var n := |projects|;
    if n == 0 then NoProjectsLine
    else if n == 1 then OneProjectLine
    else if n <= 3 then DeliveredOpen + NatToString(n) + DeliveredClose
    else PortfolioLine
  }

  /** project counts that get the same phrase: equal ones, or two above 3 */
  predicate SamePhrase(a: nat, b: nat) {
    a == b || (a > 3 && b > 3)
  }

  /** Two project lists get the same phrase exactly when their counts do, and the phrase
      for 2 or 3 projects holds the count, which reads back from it. */
  lemma ProjectsSummarySpec(p: seq<string>, q: seq<string>)
    ensures ProjectsSummary(p) == ProjectsSummary(q) <==> SamePhrase(|p|, |q|)
    ensures 2 <= |p| <= 3 ==>
              exists digits :: IsDigits(digits) && ParseDigits(digits) == |p| &&
                ProjectsSummary(p) == DeliveredOpen + digits + DeliveredClose
  {
    PhraseLength(p);
    PhraseLength(q);
    if 2 <= |p| <= 3 && 2 <= |q| <= 3 && |p| != |q| {
      assert ProjectsSummary(p)[|DeliveredOpen|] != ProjectsSummary(q)[|DeliveredOpen|];
    }
    if 2 <= |p| <= 3 {
      ParseNatToString(|p|);
    }
  }

  /** the phrase lengths, which differ between the four kinds */
  lemma PhraseLength(p: seq<string>)
    ensures |ProjectsSummary(p)| == if |p| == 0 then 27 else if |p| == 1 then 63 else if |p| <= 3 then 39 else 57
    ensures 2 <= |p| <= 3 ==> ProjectsSummary(p)[|DeliveredOpen|] == DigitChar(|p|)
  {
  }

  // ---------------------------------------------------------------- filling a template

  /** the template variables */
  datatype Vars = Vars(
    role: string, seniority: string, expertise: string, years: string, skills: string,
    specializations: string, achievement: string, education: string, projects: string,
    field: string, newField: string)

  function Value(v: Vars, f: Field): string {
    match f
    case Role => v.role
    case Seniority => v.seniority
    case Expertise => v.expertise
    case Years => v.years
    case SkillList => v.skills
    case Specializations => v.specializations
    case Achievement => v.achievement
    case EducationName => v.education
    case ProjectsLine => v.projects
    case FieldName => v.field
    case NewField => v.newField
  }

  /** template.format(**template_vars) */
  function Format(t: Template, v: Vars): string
    decreases |t|
  {
    if t == [] then ""
    else (match t[0] case Text(s) => s case Slot(f) => Value(v, f)) + Format(t[1..], v)
  }

  const ExperiencedWord := "Experienced"
  const DedicatedWord := "Dedicated"
  const ExpertWord := "Expert"
  const SkilledWord := "Skilled"
  const AnyTechnologies := "multiple technologies"
  const AnySolutions := "innovative solutions"
  const AnyEducation := "technology"
  const ListSep := ", "

  /** the field a role works in: its last word when it has several, lower-cased */
  function FieldOf(role: string): string {
    if ' ' in role then Lower(LastWord(role)) else Lower(role)
  }

  /** For a role with a space and no trailing whitespace, the field is its last word
      lower-cased: the characters after the last whitespace. */
  lemma FieldIsLastWord(role: string)
    requires ' ' in role && !IsSpace(role[|role| - 1])
    ensures exists k :: && 0 < k <= |role| && IsSpace(role[k - 1])
                        && (forall i :: k <= i < |role| ==> !IsSpace(role[i]))
                        && FieldOf(role) == Lower(role[k..])
  {
    assert RStrip(role) == role;
    var k := RunStart(role, |role|);
    var i :| 0 <= i < |role| && role[i] == ' ';
    assert IsSpace(role[i]);
    assert FieldOf(role) == Lower(role[k..]);
  }

  /** template_vars */
  function TemplateVars(role: string, e: Estimate, top: seq<string>, specs: seq<string>,
                        achievement: string, education: Option<string>, projectsLine: string): Vars
  {
    Vars(
      role,
      if e.level != Entry then ExperiencedWord else DedicatedWord,
      if e.level == Senior then ExpertWord else SkilledWord,
      e.years,
      if top != [] then Join(top, ListSep) else AnyTechnologies,
      if specs != [] then Join(specs, ListSep) else AnySolutions,
      achievement,
      education.GetOr(AnyEducation),
      projectsLine,
      FieldOf(role),
      Lower(role))
  }

  /** the template category: entry level for an educated entry-level candidate whose years
      are "recent graduate" or "1-2 years", and experienced otherwise */
  function CategoryOf(education: Option<string>, e: Estimate): TemplateCategory {
    if education.Some? && e.level == Entry && (e.years == RecentGraduate || e.years == JuniorYears)
    then EntryLevel else Experienced
  }

  /** The entry-level templates are used exactly for an educated candidate without stated
      years whose title words are junior ones only, or who has no title words and at most
      500 points of content; stated years never lead there, and the career-change templates
      are never used. */
  lemma CategorySpec(t: SummaryTables, input: SummaryInput)
    ensures var text := Lower(input.text);
            var c := CategoryOf(DetectEducationLevel(input.text), ExperienceOf(t, input));
            && c != CareerChange
            && (c == EntryLevel <==>
                  && DetectEducationLevel(input.text).Some?
                  && Flatten(input.yearMatches) == []
                  && !AnyIn(text, t.seniorIndicators)
                  && !AnyIn(text, t.midIndicators)
                  && (AnyIn(text, t.juniorIndicators) || ComplexityScore(input) <= 500))
  {
    var years := Flatten(input.yearMatches);
    if years != [] {
      var m := MaxOf(years);
      if m < 3 {
        assert |FromYears(m).years| == 7;
      }
    }
  }

  // ---------------------------------------------------------------- two sentences

  const SentenceSep := ". "
  const AndSep := " and "
  const FullStop := "."

  /** '. '.join(sentences[:2]) + '.' when splitting on ". " gives more than two parts */
  function KeepTwoSentences(s: string): string {
    var parts := SplitOn(s, SentenceSep);
    if |parts| > 2 then Join(parts[..2], SentenceSep) + FullStop else s
  }

  /** a single sentence longer than 150 characters is split at the first " and " in its
      second half, the rest capitalised; the search for ". " there finds none */
  function SplitLongSentence(s: string): string {
    var mid := FindFrom(s, SentenceSep, 0);
    if mid == -1 then
      var at := FindFrom(s, AndSep, |s| / 2);
      if at != -1 then s[..at] + SentenceSep + Capitalize(s[at + |AndSep|..]) else s
    else s
  }

  /** what generate_summary does to the filled template */
  function ShapeSummary(s: string): string {
    if |SplitOn(s, SentenceSep)| == 1 && |s| > 150 then SplitLongSentence(s) else KeepTwoSentences(s)
  }

  /** More than two sentences are cut to the first two, the second ending in a full stop;
      two or fewer are kept; so the result has one or two. */
  lemma KeepTwoSentencesSpec(s: string)
    ensures var parts := SplitOn(s, SentenceSep);
            |parts| > 2 ==> SplitOn(KeepTwoSentences(s), SentenceSep) == [parts[0], parts[1] + FullStop]
    ensures |SplitOn(s, SentenceSep)| <= 2 ==> KeepTwoSentences(s) == s
    ensures 1 <= |SplitOn(KeepTwoSentences(s), SentenceSep)| <= 2
  {
    var parts := SplitOn(s, SentenceSep);
    if |parts| > 2 {
      SplitOnClean(s, SentenceSep);
      assert parts[0] in parts && parts[1] in parts;
      assert parts[..2][1..] == [parts[1]];
      assert Join(parts[..2], SentenceSep) == parts[0] + SentenceSep + parts[1];
      assert KeepTwoSentences(s) == parts[0] + SentenceSep + (parts[1] + FullStop);
      SplitAround(parts[0], SentenceSep, parts[1] + FullStop);
      assert FullStop == [SentenceSep[0]];
      AppendFirstClean(parts[1], SentenceSep);
      SplitOnClean1(parts[1] + FullStop, SentenceSep);
    }
  }

  /** Splitting a single long sentence gives at most two. */
  lemma SplitLongSentenceSpec(s: string)
    requires |SplitOn(s, SentenceSep)| == 1
    ensures 1 <= |SplitOn(SplitLongSentence(s), SentenceSep)| <= 2
  {
    SplitOnOne(s, SentenceSep);
    FindNotContained(s, SentenceSep);
    var at := FindFrom(s, AndSep, |s| / 2);
    if at != -1 {
      var head := s[..at];
      var rest := s[at + |AndSep|..];
      SliceClean(s, SentenceSep, 0, at);
      assert s[0..at] == head;
      SliceClean(s, SentenceSep, at + |AndSep|, |s|);
      assert s[at + |AndSep|..|s|] == rest;
      CapitalizeClean(rest, SentenceSep);
      SplitAround(head, SentenceSep, Capitalize(rest));
      SplitOnClean1(Capitalize(rest), SentenceSep);
    }
  }

  /** A generated summary has one or two sentences. */
  lemma ShapeSummarySpec(s: string)
    ensures 1 <= |SplitOn(ShapeSummary(s), SentenceSep)| <= 2
  {
    if |SplitOn(s, SentenceSep)| == 1 && |s| > 150 {
      SplitLongSentenceSpec(s);
    } else {
      KeepTwoSentencesSpec(s);
    }
  }

  // ---------------------------------------------------------------- _generate_alternatives

  /** one alternative per template among the first two of the category, each cut to two
      sentences */
  function AlternativesOf(t: SummaryTables, c: TemplateCategory, v: Vars): (alts: seq<string>) {
    var ts := Take(t.TemplatesOf(c), 2);
    seq(|ts|, i requires 0 <= i < |ts| => KeepTwoSentences(Format(ts[i], v)))
  }

  method GenerateAlternatives(t: SummaryTables, c: TemplateCategory, v: Vars) returns (alts: seq<string>)
    ensures alts == AlternativesOf(t, c, v)
  {
    var ts := Take(t.TemplatesOf(c), 2);
    alts := [];
    for i := 0 to |ts|
      invariant |alts| == i
      invariant forall j :: 0 <= j < i ==> alts[j] == KeepTwoSentences(Format(ts[j], v))
    {
      var alternative := Format(ts[i], v);
      alternative := KeepTwoSentences(alternative);
      alts := alts + [alternative];
    }
  }

  /** There are two alternatives when the category has two templates (fewer otherwise),
      each filled from the category's own templates in order and of one or two sentences. */
  lemma AlternativesSpec(t: SummaryTables, c: TemplateCategory, v: Vars)
    ensures |AlternativesOf(t, c, v)| == if |t.TemplatesOf(c)| < 2 then |t.TemplatesOf(c)| else 2
    ensures forall i :: 0 <= i < |AlternativesOf(t, c, v)| ==>
              AlternativesOf(t, c, v)[i] == KeepTwoSentences(Format(t.TemplatesOf(c)[i], v))
    ensures forall a :: a in AlternativesOf(t, c, v) ==> 1 <= |SplitOn(a, SentenceSep)| <= 2
  {
    forall a | a in AlternativesOf(t, c, v) ensures 1 <= |SplitOn(a, SentenceSep)| <= 2 {
      var i :| 0 <= i < |AlternativesOf(t, c, v)| && AlternativesOf(t, c, v)[i] == a;
      KeepTwoSentencesSpec(Format(t.TemplatesOf(c)[i], v));
    }
  }

  // ---------------------------------------------------------------- generate_summary

  /** the components dict */
  datatype Components = Components(
    role: string, level: Level, years: string, topSkills: seq<string>,
    specializations: seq<string>, education: Option<string>)

  /** the result dict: the failure for an analysis with an error (template_used None and
      no components), the generated summary otherwise */
  datatype SummaryResult =
    | Failed(summary: string, error: string)
    | Generated(summary: string, templateUsed: TemplateCategory, components: Components,
                alternatives: seq<string>)

  const FailureSummary := "Unable to generate summary due to analysis error."

  /** generate_summary; random.choice draws the achievement from rnd(0) and the template
      from rnd(1) */
  function SummaryOf(t: Tables, input: SummaryInput, rnd: Stream): SummaryResult {
    if input.error.Some? then Failed(FailureSummary, input.error.value)
    else
      var role := RoleOf(t, input.text, input.skills);
      var e := ExperienceOf(t, input);
      var education := DetectEducationLevel(input.text);
      var top := TopSkillsOf(input.skills, PriorityCategories, 3);
      var specs := SpecializationsOf(t.specializationMapping, input.skills);
      var category := CategoryOf(education, e);
      var vars := TemplateVars(role, e, top, specs, Choice(t.achievements, rnd(0)), education,
                               ProjectsSummary(input.projects));
      Generated(ShapeSummary(Format(Choice(t.TemplatesOf(category), rnd(1)), vars)), category,
                Components(role, e.level, e.years, top, specs, education),
                AlternativesOf(t, category, vars))
  }

  method GenerateSummary(t: Tables, input: SummaryInput, rnd: Stream) returns (r: SummaryResult)
    ensures r == SummaryOf(t, input, rnd)
  {
    if input.error.Some? {
      return Failed(FailureSummary, input.error.value);
    }
    var role := DetermineRole(t, input.text, input.skills);
    var e := EstimateExperience(t, input);
    var education := DetectEducationLevel(input.text);
    var top := TopSkills(input.skills, 3);
    var specs := GetSpecializations(t.specializationMapping, input.skills);
    var achievement := Choice(t.achievements, rnd(0));
    var projectsLine := ProjectsSummary(input.projects);
    var category := CategoryOf(education, e);
    var template := Choice(t.TemplatesOf(category), rnd(1));
    var vars := TemplateVars(role, e, top, specs, achievement, education, projectsLine);
    var summary := ShapeSummary(Format(template, vars));
    var alternatives := GenerateAlternatives(t, category, vars);
    r := Generated(summary, category, Components(role, e.level, e.years, top, specs, education),
                   alternatives);
  }

  /** The components and the category of a generated summary are the helpers' results. */
  lemma SummaryParts(t: Tables, input: SummaryInput, rnd: Stream)
    requires input.error.None?
    ensures var r := SummaryOf(t, input, rnd);
            && r.Generated?
            && r.components.education == DetectEducationLevel(input.text)
            && Estimate(r.components.level, r.components.years) == ExperienceOf(t, input)
            && r.templateUsed == CategoryOf(DetectEducationLevel(input.text), ExperienceOf(t, input))
  {
  }

  /** An analysis with an error gets the fixed failure summary and its own error. Any other
      gets a summary of one or two sentences, filled from a template of the category it
      reports, which is never the career-change one; at most two alternatives of one or two
      sentences each; at most 3 top skills and 2 specialisations; and the role, level and
      education the helpers determine. */
  lemma SummarySpec(t: Tables, input: SummaryInput, rnd: Stream)
    ensures input.error.Some? ==> SummaryOf(t, input, rnd) == Failed(FailureSummary, input.error.value)
    ensures input.error.None? ==>
              var r := SummaryOf(t, input, rnd);
              && r.Generated?
              && 1 <= |SplitOn(r.summary, SentenceSep)| <= 2
              && r.templateUsed != CareerChange
              && |r.alternatives| <= 2
              && (forall a :: a in r.alternatives ==> 1 <= |SplitOn(a, SentenceSep)| <= 2)
              && |r.components.topSkills| <= 3
              && |r.components.specializations| <= 2
              && r.components.role == RoleOf(t, input.text, input.skills)
              && Estimate(r.components.level, r.components.years) == ExperienceOf(t, input)
              && r.components.education == DetectEducationLevel(input.text)
  {
    if input.error.None? {
      var e := ExperienceOf(t, input);
      var education := DetectEducationLevel(input.text);
      var category := CategoryOf(education, e);
      var r := SummaryOf(t, input, rnd);
      var vars := TemplateVars(RoleOf(t, input.text, input.skills), e,
                               TopSkillsOf(input.skills, PriorityCategories, 3),
                               SpecializationsOf(t.specializationMapping, input.skills),
                               Choice(t.achievements, rnd(0)), education, ProjectsSummary(input.projects));
      ShapeSummarySpec(Format(Choice(t.TemplatesOf(category), rnd(1)), vars));
      AlternativesSpec(t, category, vars);
      SpecializationsSpec(t.specializationMapping, input.skills);
      CategorySpec(t, input);
    }
  }

  // ---------------------------------------------------------------- the analysis the app passes

  /** what generate_summary reads from the dict analyze_resume returns, which is what the
      app passes it: that dict has no 'text' key, so the text is empty and no year pattern
      matches */
  function PipelineInput(a: Analysis): SummaryInput {
    SummaryInput(a.error, "", a.skills, a.projects, a.readability.wordCount.GetOr(0), [[], [], [], []])
  }

  /** the same analysis with the resume text added, the year patterns matched against it */
  function PipelineInputWithText(a: Analysis, text: string, yearMatches: seq<seq<nat>>): SummaryInput {
    SummaryInput(a.error, text, a.skills, a.projects, a.readability.wordCount.GetOr(0), yearMatches)
  }

  /** An empty text holds no job-title word. */
  lemma NoTitleWordsInEmptyText(t: SummaryTables)
    requires TitleWordsNonEmpty(t)
    ensures FromIndicators(t, Lower("")) == None
  {
    assert Lower("") == [];
    forall k | 0 <= k < |t.seniorIndicators| ensures !Contains([], t.seniorIndicators[k]) {
      assert t.seniorIndicators[k] in t.seniorIndicators;
      ContainsInEmpty(t.seniorIndicators[k]);
    }
    forall k | 0 <= k < |t.midIndicators| ensures !Contains([], t.midIndicators[k]) {
      assert t.midIndicators[k] in t.midIndicators;
      ContainsInEmpty(t.midIndicators[k]);
    }
    forall k | 0 <= k < |t.juniorIndicators| ensures !Contains([], t.juniorIndicators[k]) {
      assert t.juniorIndicators[k] in t.juniorIndicators;
      ContainsInEmpty(t.juniorIndicators[k]);
    }
  }

  /** Given no text and no stated years, the generator never finds an education level,
      the level always comes from the amount of content and is never senior, and the
      entry-level templates are never used. */
  lemma BlankTextSummary(t: Tables, input: SummaryInput, rnd: Stream)
    requires TitleWordsNonEmpty(t) && input.error.None?
    requires input.text == [] && Flatten(input.yearMatches) == []
    ensures var r := SummaryOf(t, input, rnd);
            && r.Generated?
            && r.components.education == None
            && r.templateUsed == Experienced
            && Estimate(r.components.level, r.components.years) == FromComplexity(ComplexityScore(input))
            && r.components.level != Senior
  {
    NoEducationInEmptyText();
    NoTitleWordsInEmptyText(t);
    ComplexityMonotone(ComplexityScore(input), ComplexityScore(input));
    SummaryParts(t, input, rnd);
  }

  /** The analysis as analyze_resume returns it has no text and no stated years, so the
      summary generated from it is the one BlankTextSummary describes. */
  lemma PipelineIgnoresText(a: Analysis)
    ensures PipelineInput(a).text == [] && Flatten(PipelineInput(a).yearMatches) == []
  {
    FlattenNone(PipelineInput(a).yearMatches);
  }

  /** Patterns without matches find no years. */
  lemma {:induction false} FlattenNone(matches: seq<seq<nat>>)
    requires forall i :: 0 <= i < |matches| ==> matches[i] == []
    ensures Flatten(matches) == []
  {
    if |matches| > 0 {
      FlattenNone(matches[..|matches| - 1]);
    }
  }

  /** With the text added, the education level and the stated years of the resume reach
      the summary, and an educated candidate whose only title words are junior ones gets
      an entry-level template. */
  lemma PipelineReadsText(t: Tables, a: Analysis, text: string, yearMatches: seq<seq<nat>>, rnd: Stream)
    requires a.error.None?
    ensures var r := SummaryOf(t, PipelineInputWithText(a, text, yearMatches), rnd);
            && r.Generated?
            && r.components.education == DetectEducationLevel(text)
            && (Flatten(yearMatches) != [] ==>
                  Estimate(r.components.level, r.components.years) == FromYears(MaxOf(Flatten(yearMatches))))
            && (DetectEducationLevel(text).Some? && Flatten(yearMatches) == [] &&
                FromIndicators(t, Lower(text)) == Some(Estimate(Entry, JuniorYears))
                ==> r.templateUsed == EntryLevel)
  {
    SummaryParts(t, PipelineInputWithText(a, text, yearMatches), rnd);
  }
}
