/** The rating engine (src/rating_system.py): seven criterion curves, their weighted sum
    rounded to one decimal, a category, a breakdown by contribution and the three weakest
    criteria as improvement priorities. */
module Rating {
  import opened Common
  import opened Sorting
  import opened Analyzer

  datatype Criterion =
    SkillsDiversity | SkillsQuantity | ContactCompleteness | SectionsCompleteness |
    TextReadability | ProjectQuality | ContentLength

  /** the order of the weights table and of detailed_scores */
  const CriterionOrder: seq<Criterion> :=
    [SkillsDiversity, SkillsQuantity, ContactCompleteness, SectionsCompleteness,
     TextReadability, ProjectQuality, ContentLength]

  function Key(c: Criterion): string {
    match c
    case SkillsDiversity => "skills_diversity"
    case SkillsQuantity => "skills_quantity"
    case ContactCompleteness => "contact_completeness"
    case SectionsCompleteness => "sections_completeness"
    case TextReadability => "readability"
    case ProjectQuality => "project_quality"
    case ContentLength => "content_length"
  }

  function Weight(c: Criterion): (w: real)
    ensures 0.0 < w < 1.0
  {
    match c
    case SkillsDiversity => 0.20
    case SkillsQuantity => 0.15
    case ContactCompleteness => 0.10
    case SectionsCompleteness => 0.15
    case TextReadability => 0.15
    case ProjectQuality => 0.15
    case ContentLength => 0.10
  }

  function Explanation(c: Criterion): string {
    match c
    case SkillsDiversity => "Variety of skill categories (technical, soft skills, tools)"
    case SkillsQuantity => "Total number of skills mentioned throughout resume"
    case ContactCompleteness => "Presence of email, phone, LinkedIn, GitHub"
    case SectionsCompleteness => "Essential sections: experience, education, skills, projects"
    case TextReadability => "Text clarity, sentence length, and complexity"
    case ProjectQuality => "Number and quality of project descriptions"
    case ContentLength => "Appropriate resume length (not too short or long)"
  }

  function Min(a: real, b: real): real { if a <= b then a else b }

  function TotalWeight(cs: seq<Criterion>): real
    decreases |cs|
  {
    if cs == [] then 0.0 else Weight(cs[0]) + TotalWeight(cs[1..])
  }

  /** The weights add up to one. */
  lemma WeightsSumToOne()
    ensures TotalWeight(CriterionOrder) == 1.0
  {
    assert CriterionOrder[1..][1..][1..][1..][1..][1..][1..] == [];
  }

  // ---------------------------------------------------------------- skills

  /** the diversity curve over the number of categories */
  function DiversityScore(categories: nat): (r: real)
    ensures r == 0.0 || r == 4.0 || r == 5.5 || r == 7.0 || r == 8.5 || r == 10.0
    ensures categories >= 5 <==> r == 10.0
    ensures categories == 0 <==> r == 0.0
  {
    if categories >= 5 then 10.0
    else if categories >= 3 then 7.0 + (categories - 3) as real * 1.5
    else if categories >= 1 then 4.0 + (categories - 1) as real * 1.5
    else 0.0
  }

  function ScoreSkillsDiversity(skills: SkillMap): (r: real)
    ensures 0.0 <= r <= 10.0
  {
    if skills == [] then 0.0 else DiversityScore(|skills|)
  }

  /** More categories never lower the diversity score. */
  lemma DiversityMonotone(m: nat, n: nat)
    requires m <= n
    ensures DiversityScore(m) <= DiversityScore(n)
  {
  }

  /** the quantity curve over the total number of skills */
  function QuantityScore(total: nat): (r: real)
    ensures 0.0 <= r <= 10.0
  {
    if total >= 15 then 10.0
    else if total >= 5 then 5.0 + ((total - 5) as real / (15 - 5) as real) * 5.0
    else (total as real / 5.0) * 5.0
  }

  function ScoreSkillsQuantity(skills: SkillMap): (r: real)
    ensures 0.0 <= r <= 10.0
  {
    if skills == [] then 0.0 else QuantityScore(SumLengths(skills))
  }

  /** More skills never lower the quantity score: 0 at none, 5 at the minimum of 5 skills,
      10 from the ideal 15 on. */
  lemma QuantityMonotone(m: nat, n: nat)
    requires m <= n
    ensures QuantityScore(m) <= QuantityScore(n)
    ensures QuantityScore(0) == 0.0 && QuantityScore(5) == 5.0 && QuantityScore(15) == 10.0
  {
  }

  // ---------------------------------------------------------------- contact

  const EssentialContact: seq<ContactField> := [Email, Phone]
  const BonusContact: seq<ContactField> := [LinkedIn, GitHub]

  /** `each` points for every field of `fields` present in the contact dict */
  function ContactPoints(contact: map<ContactField, string>, fields: seq<ContactField>, each: real): real
    decreases |fields|
  {
    if fields == [] then 0.0
    else
      ContactPoints(contact, fields[..|fields| - 1], each) +
      (if fields[|fields| - 1] in contact then each else 0.0)
  }

  function ContactScore(contact: map<ContactField, string>): real {
    if |contact| == 0 then 0.0
    else Min(ContactPoints(contact, EssentialContact, 3.5) + ContactPoints(contact, BonusContact, 1.5), 10.0)
  }

  method ScoreContactCompleteness(contact: map<ContactField, string>) returns (score: real)
    ensures score == ContactScore(contact)
  {
    if |contact| == 0 {
      return 0.0;
    }
    score := 0.0;
    for i := 0 to |EssentialContact|
      invariant score == ContactPoints(contact, EssentialContact[..i], 3.5)
    {
      assert EssentialContact[..i + 1][..i] == EssentialContact[..i];
      if EssentialContact[i] in contact {
        score := score + 3.5;
      }
    }
    assert EssentialContact[..|EssentialContact|] == EssentialContact;
    for i := 0 to |BonusContact|
      invariant score == ContactPoints(contact, EssentialContact, 3.5) + ContactPoints(contact, BonusContact[..i], 1.5)
    {
      assert BonusContact[..i + 1][..i] == BonusContact[..i];
      if BonusContact[i] in contact {
        score := score + 1.5;
      }
    }
    assert BonusContact[..|BonusContact|] == BonusContact;
    score := Min(score, 10.0);
  }

  lemma ContactPointsPair(contact: map<ContactField, string>, x: ContactField, y: ContactField, each: real)
    ensures ContactPoints(contact, [x, y], each) ==
              (if x in contact then each else 0.0) + (if y in contact then each else 0.0)
  {
    assert [x, y][..1] == [x];
    assert [x][..0] == [];
    assert ContactPoints(contact, [x], each) == ContactPoints(contact, [], each) + (if x in contact then each else 0.0);
    assert ContactPoints(contact, [x, y], each) == ContactPoints(contact, [x], each) + (if y in contact then each else 0.0);
  }

  /** 3.5 points each for email and phone, 1.5 each for LinkedIn and GitHub: the cap at 10 and
      the empty-dict test never change the sum. */
  lemma ContactScoreClosedForm(contact: map<ContactField, string>)
    ensures ContactScore(contact) ==
              (if Email in contact then 3.5 else 0.0) + (if Phone in contact then 3.5 else 0.0) +
              (if LinkedIn in contact then 1.5 else 0.0) + (if GitHub in contact then 1.5 else 0.0)
    ensures 0.0 <= ContactScore(contact) <= 10.0
  {
    ContactPointsPair(contact, Email, Phone, 3.5);
    ContactPointsPair(contact, LinkedIn, GitHub, 1.5);
    if |contact| == 0 {
      assert contact == map[];
    }
  }

  /** Email and phone alone give exactly 7.0. */
  lemma ContactEmailAndPhone(contact: map<ContactField, string>)
    requires contact.Keys == {Email, Phone}
    ensures ContactScore(contact) == 7.0
  {
    ContactScoreClosedForm(contact);
  }

  // ---------------------------------------------------------------- sections

  const EssentialSections: seq<Section> := [Experience, Education, Skills]
  const ImportantSections: seq<Section> := [Summary, Projects]
  const BonusSections: seq<Section> := [Certifications, Achievements]

  /** sections.get(s, False) */
  predicate SectionOn(sections: map<Section, bool>, s: Section) {
    s in sections && sections[s]
  }

  function SectionPoints(sections: map<Section, bool>, list: seq<Section>, each: real): real
    decreases |list|
  {
    if list == [] then 0.0
    else
      SectionPoints(sections, list[..|list| - 1], each) +
      (if SectionOn(sections, list[|list| - 1]) then each else 0.0)
  }

  function SectionsScore(sections: map<Section, bool>): real {
    if |sections| == 0 then 0.0
    else Min(SectionPoints(sections, EssentialSections, 2.0) + SectionPoints(sections, ImportantSections, 1.5) +
             SectionPoints(sections, BonusSections, 0.5), 10.0)
  }

  method ScoreSectionsCompleteness(sections: map<Section, bool>) returns (score: real)
    ensures score == SectionsScore(sections)
  {
    if |sections| == 0 {
      return 0.0;
    }
    score := 0.0;
    for i := 0 to |EssentialSections|
      invariant score == SectionPoints(sections, EssentialSections[..i], 2.0)
    {
      assert EssentialSections[..i + 1][..i] == EssentialSections[..i];
      if SectionOn(sections, EssentialSections[i]) {
        score := score + 2.0;
      }
    }
    assert EssentialSections[..|EssentialSections|] == EssentialSections;
    var essential := score;
    for i := 0 to |ImportantSections|
      invariant score == essential + SectionPoints(sections, ImportantSections[..i], 1.5)
    {
      assert ImportantSections[..i + 1][..i] == ImportantSections[..i];
      if SectionOn(sections, ImportantSections[i]) {
        score := score + 1.5;
      }
    }
    assert ImportantSections[..|ImportantSections|] == ImportantSections;
    var important := score;
    for i := 0 to |BonusSections|
      invariant score == important + SectionPoints(sections, BonusSections[..i], 0.5)
    {
      assert BonusSections[..i + 1][..i] == BonusSections[..i];
      if SectionOn(sections, BonusSections[i]) {
        score := score + 0.5;
      }
    }
    assert BonusSections[..|BonusSections|] == BonusSections;
    score := Min(score, 10.0);
  }

  lemma SectionPointsPair(sections: map<Section, bool>, x: Section, y: Section, each: real)
    ensures SectionPoints(sections, [x, y], each) ==
              (if SectionOn(sections, x) then each else 0.0) + (if SectionOn(sections, y) then each else 0.0)
  {
    assert [x, y][..1] == [x];
    assert [x][..0] == [];
    assert SectionPoints(sections, [x], each) ==
           SectionPoints(sections, [], each) + (if SectionOn(sections, x) then each else 0.0);
    assert SectionPoints(sections, [x, y], each) ==
           SectionPoints(sections, [x], each) + (if SectionOn(sections, y) then each else 0.0);
  }

  lemma SectionPointsTriple(sections: map<Section, bool>, x: Section, y: Section, z: Section, each: real)
    ensures SectionPoints(sections, [x, y, z], each) ==
              (if SectionOn(sections, x) then each else 0.0) + (if SectionOn(sections, y) then each else 0.0) +
              (if SectionOn(sections, z) then each else 0.0)
  {
    assert [x, y, z][..2] == [x, y];
    SectionPointsPair(sections, x, y, each);
  }

  /** 2 points per essential, 1.5 per important and 0.5 per bonus section present; the contact
      section earns nothing, and the cap at 10 never changes the sum. */
  lemma SectionsScoreClosedForm(sections: map<Section, bool>)
    ensures SectionsScore(sections) ==
              (if SectionOn(sections, Experience) then 2.0 else 0.0) +
              (if SectionOn(sections, Education) then 2.0 else 0.0) +
              (if SectionOn(sections, Skills) then 2.0 else 0.0) +
              (if SectionOn(sections, Summary) then 1.5 else 0.0) +
              (if SectionOn(sections, Projects) then 1.5 else 0.0) +
              (if SectionOn(sections, Certifications) then 0.5 else 0.0) +
              (if SectionOn(sections, Achievements) then 0.5 else 0.0)
    ensures 0.0 <= SectionsScore(sections) <= 10.0
  {
    SectionPointsTriple(sections, Experience, Education, Skills, 2.0);
    SectionPointsPair(sections, Summary, Projects, 1.5);
    SectionPointsPair(sections, Certifications, Achievements, 0.5);
    if |sections| == 0 {
      assert sections == map[];
    }
  }

  // ---------------------------------------------------------------- readability

  /** the sentence-length part: 5 up to 15 words, falling linearly to 3 at 25, then 3 */
  function LengthPart(avg: real): (r: real)
    ensures 3.0 <= r <= 5.0
    ensures avg <= 15.0 ==> r == 5.0
    ensures avg >= 25.0 ==> r == 3.0
  {
    if avg <= 15.0 then 5.0
    else if avg <= 25.0 then 5.0 - ((avg - 15.0) / (25.0 - 15.0)) * 2.0
    else 3.0
  }

  /** Longer sentences never raise the sentence-length part; between 15 and 25 words it falls
      by 0.2 per word. */
  lemma LengthPartDecays(a: real, b: real)
    requires a <= b
    ensures LengthPart(b) <= LengthPart(a)
    ensures 15.0 <= a && b <= 25.0 ==> LengthPart(a) - LengthPart(b) == (b - a) * 0.2
  {
  }

  /** the complexity part: 5 for ratios in [0.2, 0.4], less on either side */
  function ComplexityPart(ratio: real): (r: real)
    ensures 0.2 <= ratio <= 0.4 ==> r == 5.0
    ensures r <= 5.0 || ratio < 0.0
    ensures 0.0 <= ratio <= 1.0 ==> 1.0 <= r <= 5.0
  {
    if 0.2 <= ratio <= 0.4 then 5.0
    else if ratio < 0.2 then 3.0 + (ratio / 0.2) * 2.0
    else 5.0 - ((ratio - 0.4) / 0.3) * 2.0
  }

  function ScoreReadability(m: Analyzer.Readability): (r: real)
    ensures 0.0 <= r <= 10.0
  {
    if m == NoMetrics then 5.0
    else
      var total := LengthPart(m.avgSentenceLength.GetOr(20.0)) + ComplexityPart(m.complexityRatio.GetOr(0.3));
      if total < 0.0 then 0.0 else Min(total, 10.0)
  }

  /** An empty readability dict scores 5.0, and the zero-count dict, which lacks a complexity
      ratio, scores a full 10.0. */
  lemma ReadabilityDefaults(wordCount: nat)
    ensures ScoreReadability(NoMetrics) == 5.0
    ensures ScoreReadability(Analyzer.Readability(Some(0.0), Some(0.0), Some(wordCount), None, None)) == 10.0
  {
  }

  /** Within the ratios calculate_readability can produce, the score is the plain sum of the
      two parts and never below 4. */
  lemma ReadabilityInRange(m: Analyzer.Readability)
    requires m != NoMetrics && 0.0 <= m.complexityRatio.GetOr(0.3) <= 1.0
    ensures ScoreReadability(m) ==
              LengthPart(m.avgSentenceLength.GetOr(20.0)) + ComplexityPart(m.complexityRatio.GetOr(0.3))
    ensures 4.0 <= ScoreReadability(m)
  {
  }

  // ---------------------------------------------------------------- projects

  function ProjectCountPart(n: nat): (r: real)
    ensures 0.0 <= r <= 5.0
  {
    if n >= 3 then 5.0
    else if n >= 1 then 3.0 + ((n - 1) as real / 2.0) * 2.0
    else 0.0
  }

  /** points for one description: 1.67 from 15 words, 1.0 from 8, else 0.5 */
  function DescriptionPoints(p: string): (r: real)
    ensures 0.5 <= r <= 1.67
  {
    var words := WordCount(p);
    if words >= 15 then 1.67 else if words >= 8 then 1.0 else 0.5
  }

  lemma QualityPointsTriple(x: string, y: string, z: string)
    ensures QualityPoints([x, y, z]) == DescriptionPoints(x) + DescriptionPoints(y) + DescriptionPoints(z)
  {
    assert [x, y, z][..2] == [x, y];
    assert [x, y][..1] == [x];
    assert [x][..0] == [];
    assert QualityPoints([x]) == QualityPoints([]) + DescriptionPoints(x);
    assert QualityPoints([x, y]) == QualityPoints([x]) + DescriptionPoints(y);
    assert QualityPoints([x, y, z]) == QualityPoints([x, y]) + DescriptionPoints(z);
  }

  function QualityPoints(projects: seq<string>): (r: real)
    ensures 0.5 * |projects| as real <= r <= 1.67 * |projects| as real
    decreases |projects|
  {
    if projects == [] then 0.0
    else QualityPoints(projects[..|projects| - 1]) + DescriptionPoints(projects[|projects| - 1])
  }

  function ProjectScore(projects: seq<string>): (r: real)
    ensures 0.0 <= r <= 10.0
    ensures projects != [] ==> r >= 3.5
  {
    if projects == [] then 0.0
    else Min(ProjectCountPart(|projects|) + QualityPoints(Take(projects, 3)), 10.0)
  }

  method ScoreProjectQuality(projects: seq<string>) returns (score: real)
    ensures score == ProjectScore(projects)
  {
    if projects == [] {
      return 0.0;
    }
    var n := |projects|;
    var quantity: real;
    if n >= 3 {
      quantity := 5.0;
    } else if n >= 1 {
      quantity := 3.0 + ((n - 1) as real / 2.0) * 2.0;
    } else {
      quantity := 0.0;
    }
    var top := Take(projects, 3);
    var quality := 0.0;
    for i := 0 to |top|
      invariant quality == QualityPoints(top[..i])
    {
      assert top[..i + 1][..i] == top[..i];
      var words := WordCount(top[i]);
      if words >= 15 {
        quality := quality + 1.67;
      } else if words >= 8 {
        quality := quality + 1.0;
      } else {
        quality := quality + 0.5;
      }
    }
    assert top[..|top|] == top;
    score := Min(quantity + quality, 10.0);
  }

  /** Three substantial descriptions add up to 10.01, so the cap at 10 is what gives 10.0. */
  lemma ProjectScoreCapped(projects: seq<string>)
    requires |projects| >= 3
    requires forall i :: 0 <= i < 3 ==> WordCount(projects[i]) >= 15
    ensures ProjectCountPart(|projects|) + QualityPoints(Take(projects, 3)) == 10.01
    ensures ProjectScore(projects) == 10.0
  {
    var t := Take(projects, 3);
    assert t == [projects[0], projects[1], projects[2]];
    QualityPointsTriple(projects[0], projects[1], projects[2]);
  }

  // ---------------------------------------------------------------- content length

  function ContentLengthScore(wordCount: nat): (r: real)
    ensures 0.0 <= r <= 10.0
  {
    if wordCount < 150 then (wordCount as real / 150.0) * 4.0
    else if wordCount <= 400 then 7.0 + ((wordCount - 150) as real / (400 - 150) as real) * 3.0
    else if wordCount <= 800 then 10.0 - ((wordCount - 400) as real / (800 - 400) as real) * 3.0
    else 5.0
  }

  /** 150 words give 7.0, 400 give 10.0 and 800 still 7.0; only above 800 does the score drop
      to 5.0, and below 150 it stays under 4.0. */
  lemma ContentLengthValues(wordCount: nat)
    ensures ContentLengthScore(150) == 7.0
    ensures ContentLengthScore(400) == 10.0
    ensures ContentLengthScore(800) == 7.0
    ensures wordCount > 800 ==> ContentLengthScore(wordCount) == 5.0
    ensures wordCount < 150 ==> ContentLengthScore(wordCount) < 4.0
    ensures 150 <= wordCount <= 800 ==> ContentLengthScore(wordCount) >= 7.0
  {
  }

  // ---------------------------------------------------------------- overall score

  function CriterionScore(a: Analysis, c: Criterion): (r: real)
    ensures 0.0 <= r <= 10.0
  {
    match c
    case SkillsDiversity => ScoreSkillsDiversity(a.skills)
    case SkillsQuantity => ScoreSkillsQuantity(a.skills)
    case ContactCompleteness => (ContactScoreClosedForm(a.contact); ContactScore(a.contact))
    case SectionsCompleteness => (SectionsScoreClosedForm(a.sections); SectionsScore(a.sections))
    case TextReadability => ScoreReadability(a.readability)
    case ProjectQuality => ProjectScore(a.projects)
    case ContentLength => ContentLengthScore(a.readability.wordCount.GetOr(0))
  }

  type Scores = seq<(Criterion, real)>

  /** the unrounded detailed_scores dict, in criterion order */
  function DetailedScores(a: Analysis): (s: Scores)
    ensures |s| == |CriterionOrder|
    ensures forall i :: 0 <= i < |s| ==> s[i] == (CriterionOrder[i], CriterionScore(a, CriterionOrder[i]))
  {
    seq(|CriterionOrder|, i requires 0 <= i < |CriterionOrder| => (CriterionOrder[i], CriterionScore(a, CriterionOrder[i])))
  }

  function WeightedSum(s: Scores): real
    decreases |s|
  {
    if s == [] then 0.0 else s[0].1 * Weight(s[0].0) + WeightedSum(s[1..])
  }

  lemma WeightedSumStep(s: Scores, k: nat)
    requires k < |s|
    ensures WeightedSum(s[k..]) == s[k].1 * Weight(s[k].0) + WeightedSum(s[k + 1..])
  {
    assert s[k..][1..] == s[k + 1..];
  }

  /** the weighted sum of an analysis' detailed scores, written out */
  lemma WeightedSumOfScores(a: Analysis)
    ensures WeightedSum(DetailedScores(a)) ==
              0.20 * CriterionScore(a, SkillsDiversity) + 0.15 * CriterionScore(a, SkillsQuantity) +
              0.10 * CriterionScore(a, ContactCompleteness) + 0.15 * CriterionScore(a, SectionsCompleteness) +
              0.15 * CriterionScore(a, TextReadability) + 0.15 * CriterionScore(a, ProjectQuality) +
              0.10 * CriterionScore(a, ContentLength)
  {
    var s := DetailedScores(a);
    assert s[0..] == s;
    assert s[7..] == [];
    WeightedSumStep(s, 0);
    WeightedSumStep(s, 1);
    WeightedSumStep(s, 2);
    WeightedSumStep(s, 3);
    WeightedSumStep(s, 4);
    WeightedSumStep(s, 5);
    WeightedSumStep(s, 6);
  }

  /** Scores within [0, 10] give a weighted sum within [0, 10 * total weight]. */
  lemma {:induction false} WeightedSumBounds(s: Scores)
    requires forall i :: 0 <= i < |s| ==> 0.0 <= s[i].1 <= 10.0
    ensures 0.0 <= WeightedSum(s) <= 10.0 * TotalWeight(Keys(s))
    decreases |s|
  {
    if s != [] {
      assert Keys(s)[1..] == Keys(s[1..]);
      WeightedSumBounds(s[1..]);
      var w := Weight(s[0].0);
      assert 0.0 <= s[0].1 * w <= 10.0 * w;
    }
  }

  /** detailed_scores as returned: each score rounded to one decimal */
  function Rounded(s: Scores): (r: Scores)
    ensures |r| == |s|
    ensures forall i :: 0 <= i < |s| ==> r[i] == (s[i].0, Round1(s[i].1))
  {
    seq(|s|, i requires 0 <= i < |s| => (s[i].0, Round1(s[i].1)))
  }

  datatype Category = Excellent | Good | Average | BelowAverage | Poor

  function Label(c: Category): string {
    match c
    case Excellent => "Excellent"
    case Good => "Good"
    case Average => "Average"
    case BelowAverage => "Below Average"
    case Poor => "Poor"
  }

  function Description(c: Category): string {
    match c
    case Excellent => "Outstanding resume with strong impact potential"
    case Good => "Solid resume with room for minor improvements"
    case Average => "Decent resume but needs significant improvements"
    case BelowAverage => "Resume needs major improvements to be competitive"
    case Poor => "Resume requires complete overhaul"
  }

  function CategoryOf(score: real): Category {
    if score >= 8.5 then Excellent
    else if score >= 7.0 then Good
    else if score >= 5.5 then Average
    else if score >= 3.0 then BelowAverage
    else Poor
  }

  function Rank(c: Category): nat {
    match c
    case Poor => 0
    case BelowAverage => 1
    case Average => 2
    case Good => 3
    case Excellent => 4
  }

  /** A higher score never earns a lower category. */
  lemma CategoryMonotone(x: real, y: real)
    requires x <= y
    ensures Rank(CategoryOf(x)) <= Rank(CategoryOf(y))
  {
  }

  // ---------------------------------------------------------------- breakdown

  datatype BreakdownEntry = BreakdownEntry(
    criterion: string, score: real, weight: real, explanation: string, contribution: real)

  /** criterion.replace('_', ' ').title(), the display name of a criterion */
  function CriterionName(c: Criterion): string {
    DisplayName(Key(c))
  }

  function Entry(c: Criterion, score: real): BreakdownEntry {
    BreakdownEntry(CriterionName(c), score, Weight(c) * 100.0, Explanation(c), Round1(score * Weight(c)))
  }

  function Contribution(e: BreakdownEntry): real { e.contribution }

  function Entries(s: Scores): (r: seq<BreakdownEntry>)
    ensures |r| == |s|
    ensures forall i :: 0 <= i < |s| ==> r[i] == Entry(s[i].0, s[i].1)
  {
    seq(|s|, i requires 0 <= i < |s| => Entry(s[i].0, s[i].1))
  }

  /** score_breakdown: one entry per criterion, stably sorted by rounded contribution, largest first */
  function Breakdown(s: Scores): seq<BreakdownEntry> {
    SortDesc(Entries(s), Contribution)
  }

  lemma EntriesAppend(s: Scores, p: (Criterion, real))
    ensures Entries(s + [p]) == Entries(s) + [Entry(p.0, p.1)]
  {
    var l := Entries(s + [p]);
    var r := Entries(s) + [Entry(p.0, p.1)];
    assert |l| == |r|;
    forall i | 0 <= i < |l| ensures l[i] == r[i] {
      if i < |s| {
        assert (s + [p])[i] == s[i];
      }
    }
  }

  method GenerateScoreBreakdown(s: Scores) returns (breakdown: seq<BreakdownEntry>)
    ensures breakdown == Breakdown(s)
  {
    var entries: seq<BreakdownEntry> := [];
    for i := 0 to |s|
      invariant entries == Entries(s[..i])
    {
      assert s[..i + 1] == s[..i] + [s[i]];
      EntriesAppend(s[..i], s[i]);
      entries := entries + [Entry(s[i].0, s[i].1)];
    }
    assert s[..|s|] == s;
    breakdown := SortDesc(entries, Contribution);
  }

  /** The breakdown lists every criterion's entry exactly once, largest contribution first,
      entries with equal contributions in criterion order. */
  lemma BreakdownSpec(s: Scores, v: real)
    ensures multiset(Breakdown(s)) == multiset(Entries(s))
    ensures forall i, j :: 0 <= i < j < |Breakdown(s)| ==>
              Breakdown(s)[i].contribution >= Breakdown(s)[j].contribution
    ensures WithKey(Breakdown(s), Contribution, v) == WithKey(Entries(s), Contribution, v)
  {
    SortDescSorted(Entries(s), Contribution);
    SortDescStable(Entries(s), Contribution, v);
  }

  // ---------------------------------------------------------------- improvement priorities

  function Score(p: (Criterion, real)): real { p.1 }

  function LowScoreKey(p: (Criterion, real)): real { -p.1 }

  /** sorted(detailed_scores.items(), key=score): stable, lowest first */
  function LowestFirst(s: Scores): Scores {
    SortDesc(s, LowScoreKey)
  }

  predicate NeedsImprovement(p: (Criterion, real)) { p.1 < 7.0 }

  /** the criteria among the three lowest whose score is below 7.0, lowest first */
  function PriorityCriteria(s: Scores): seq<(Criterion, real)> {
    Filter(Take(LowestFirst(s), 3), NeedsImprovement)
  }

  /** the display names of the criteria, in order */
  function Names(ps: seq<(Criterion, real)>): (r: seq<string>)
    ensures |r| == |ps|
    decreases |ps|
  {
    if ps == [] then [] else Names(ps[..|ps| - 1]) + [CriterionName(ps[|ps| - 1].0)]
  }

  lemma NamesAppend(ps: seq<(Criterion, real)>, p: (Criterion, real))
    ensures Names(ps + [p]) == Names(ps) + [CriterionName(p.0)]
  {
    assert (ps + [p])[..|ps|] == ps;
  }

  method IdentifyImprovementPriorities(s: Scores) returns (priorities: seq<string>)
    ensures priorities == Names(PriorityCriteria(s))
  {
    var sorted := LowestFirst(s);
    priorities := NamePriorities(Take(sorted, 3));
  }

  /** the loop over the three lowest scores, naming those below 7.0 */
  method NamePriorities(top: Scores) returns (priorities: seq<string>)
    ensures priorities == Names(Filter(top, NeedsImprovement))
  {
    var picked: Scores := [];
    priorities := [];
    for i := 0 to |top|
      invariant picked == Filter(top[..i], NeedsImprovement)
      invariant priorities == Names(picked)
    {
      assert top[..i + 1] == top[..i] + [top[i]];
      FilterAppend(top[..i], top[i], NeedsImprovement);
      if top[i].1 < 7.0 {
        NamesAppend(picked, top[i]);
        picked := picked + [top[i]];
        priorities := priorities + [CriterionName(top[i].0)];
      }
    }
    assert top[..|top|] == top;
  }

  /** At most three priorities, each a criterion of s scoring below 7.0. */
  lemma PriorityBounded(s: Scores)
    ensures |PriorityCriteria(s)| <= 3
    ensures forall p :: p in PriorityCriteria(s) ==> p in s && p.1 < 7.0
  {
    var sorted := LowestFirst(s);
    forall p | p in PriorityCriteria(s) ensures p in s {
      assert p in multiset(sorted);
    }
  }

  /** The three lowest come lowest first. */
  lemma LowestFirstOrdered(s: Scores)
    ensures forall i, j :: 0 <= i < j < |Take(LowestFirst(s), 3)| ==>
              Take(LowestFirst(s), 3)[i].1 <= Take(LowestFirst(s), 3)[j].1
  {
    var sorted := LowestFirst(s);
    SortDescSorted(s, LowScoreKey);
    forall i, j | 0 <= i < j < |Take(sorted, 3)| ensures Take(sorted, 3)[i].1 <= Take(sorted, 3)[j].1 {
      assert LowScoreKey(sorted[i]) >= LowScoreKey(sorted[j]);
    }
  }

  /** The priorities come lowest score first. */
  lemma PriorityAscending(s: Scores)
    ensures forall i, j :: 0 <= i < j < |PriorityCriteria(s)| ==>
              PriorityCriteria(s)[i].1 <= PriorityCriteria(s)[j].1
  {
    LowestFirstOrdered(s);
    FilterAscending(Take(LowestFirst(s), 3), NeedsImprovement, Score);
  }

  /** A priority scores no higher than any criterion left out of the three lowest. */
  lemma PriorityLowest(s: Scores, p: (Criterion, real), q: (Criterion, real))
    requires p in PriorityCriteria(s) && q in s && q !in Take(LowestFirst(s), 3)
    ensures p.1 <= q.1
  {
    var sorted := LowestFirst(s);
    var top := Take(sorted, 3);
    SortDescSorted(s, LowScoreKey);
    var i :| 0 <= i < |top| && top[i] == p;
    assert q in multiset(sorted);
    var k :| 0 <= k < |sorted| && sorted[k] == q;
    assert k >= 3;
    assert LowScoreKey(sorted[i]) >= LowScoreKey(sorted[k]);
  }

  // ---------------------------------------------------------------- calculate_overall_score

  datatype RatingResult =
    | Failed(overallScore: real, detailedScores: Scores, error: string)
    | Rated(overallScore: real, category: string, description: string, detailedScores: Scores,
            breakdown: seq<BreakdownEntry>, improvementPriority: seq<string>)

  /** calculate_overall_score */
  function Rate(a: Analysis): RatingResult {
    if a.error.Some? then Failed(0.0, [], a.error.value)
    else
      var s := DetailedScores(a);
      var overall := Round1(WeightedSum(s));
      var cat := CategoryOf(overall);
      Rated(overall, Label(cat), Description(cat), Rounded(s), Breakdown(s), Names(PriorityCriteria(s)))
  }

  method CalculateOverallScore(a: Analysis) returns (r: RatingResult)
    ensures r == Rate(a)
  {
    if a.error.Some? {
      return Failed(0.0, [], a.error.value);
    }
    var contact := ScoreContactCompleteness(a.contact);
    var sections := ScoreSectionsCompleteness(a.sections);
    var projects := ScoreProjectQuality(a.projects);
    ContactScoreClosedForm(a.contact);
    SectionsScoreClosedForm(a.sections);
    var s: Scores := [
      (SkillsDiversity, ScoreSkillsDiversity(a.skills)),
      (SkillsQuantity, ScoreSkillsQuantity(a.skills)),
      (ContactCompleteness, contact),
      (SectionsCompleteness, sections),
      (TextReadability, ScoreReadability(a.readability)),
      (ProjectQuality, projects),
      (ContentLength, ContentLengthScore(a.readability.wordCount.GetOr(0)))];
    assert s == DetailedScores(a);
    var overall := Round1(WeightedSum(s));
    var cat := CategoryOf(overall);
    var breakdown := GenerateScoreBreakdown(s);
    var priorities := IdentifyImprovementPriorities(s);
    r := Rated(overall, Label(cat), Description(cat), Rounded(s), breakdown, priorities);
  }

  /** An analysis carrying an error rates 0.0 with no detailed scores and the same error;
      otherwise the overall score is the weighted sum rounded to one decimal, within [0, 10],
      its category set by the thresholds, every criterion in the breakdown once. */
  lemma RateSpec(a: Analysis)
    ensures a.error.Some? ==> Rate(a) == Failed(0.0, [], a.error.value)
    ensures a.error.None? ==>
              && Rate(a).Rated?
              && Rate(a).overallScore == Round1(WeightedSum(DetailedScores(a)))
              && 0.0 <= Rate(a).overallScore <= 10.0
              && Rate(a).category == Label(CategoryOf(Rate(a).overallScore))
              && Rate(a).detailedScores == Rounded(DetailedScores(a))
              && |Rate(a).breakdown| == 7
              && |Rate(a).improvementPriority| <= 3
  {
    if a.error.None? {
      var s := DetailedScores(a);
      WeightedSumBounds(s);
      assert Keys(s) == CriterionOrder;
      WeightsSumToOne();
      Round1Within(WeightedSum(s), 0, 100);
      PriorityBounded(s);
    }
  }

  /** A resume meeting every ideal (five categories and fifteen skills, all four contact
      fields, every scored section, short sentences of moderate complexity, three substantial
      projects, 400 words) rates 10.0, Excellent, with nothing to improve. */
  lemma IdealResume(a: Analysis)
    requires a.error.None?
    requires |a.skills| >= 5 && SumLengths(a.skills) >= 15
    requires a.contact.Keys == {Email, Phone, LinkedIn, GitHub}
    requires forall s :: s != Contact ==> SectionOn(a.sections, s)
    requires a.readability.avgSentenceLength == Some(12.0) && a.readability.complexityRatio == Some(0.3)
    requires a.readability.wordCount == Some(400)
    requires |a.projects| >= 3 && forall i :: 0 <= i < 3 ==> WordCount(a.projects[i]) >= 15
    ensures Rate(a).Rated? && Rate(a).overallScore == 10.0 && Rate(a).category == Label(Excellent)
    ensures Rate(a).improvementPriority == []
  {
    var s := DetailedScores(a);
    IdealScores(a);
    WeightedSumOfScores(a);
    assert WeightedSum(s) == 10.0;
    assert (10.0 * 10.0 + 0.5).Floor == 100;
    NoPriorities(s);
  }

  /** Such a resume scores 10.0 on every criterion. */
  lemma IdealScores(a: Analysis)
    requires |a.skills| >= 5 && SumLengths(a.skills) >= 15
    requires a.contact.Keys == {Email, Phone, LinkedIn, GitHub}
    requires forall s :: s != Contact ==> SectionOn(a.sections, s)
    requires a.readability.avgSentenceLength == Some(12.0) && a.readability.complexityRatio == Some(0.3)
    requires a.readability.wordCount == Some(400)
    requires |a.projects| >= 3 && forall i :: 0 <= i < 3 ==> WordCount(a.projects[i]) >= 15
    ensures forall c :: CriterionScore(a, c) == 10.0
  {
    ContactScoreClosedForm(a.contact);
    SectionsScoreClosedForm(a.sections);
    ProjectScoreCapped(a.projects);
  }

  /** When every criterion scores at least 7.0 there is nothing to improve. */
  lemma NoPriorities(s: Scores)
    requires forall i :: 0 <= i < |s| ==> s[i].1 >= 7.0
    ensures PriorityCriteria(s) == []
  {
    var top := Take(LowestFirst(s), 3);
    forall p | p in top ensures p.1 >= 7.0 {
      assert p in multiset(LowestFirst(s));
      assert p in multiset(s);
      var i :| 0 <= i < |s| && s[i] == p;
    }
    FilterNone(top, NeedsImprovement);
  }

  /** A resume with no skills, no sections and no projects, under 150 words, rates Poor
      whatever its contact details and readability. */
  lemma BareResume(a: Analysis)
    requires a.error.None?
    requires a.skills == [] && a.projects == []
    requires forall s :: !SectionOn(a.sections, s)
    requires a.readability.wordCount.GetOr(0) < 150
    ensures Rate(a).Rated? && Rate(a).overallScore < 3.0 && Rate(a).category == Label(Poor)
  {
    var sum := WeightedSum(DetailedScores(a));
    BareResumeSum(a);
    Round1Within(sum, 0, 29);
  }

  lemma BareResumeSum(a: Analysis)
    requires a.skills == [] && a.projects == []
    requires forall s :: !SectionOn(a.sections, s)
    requires a.readability.wordCount.GetOr(0) < 150
    ensures 0.0 <= WeightedSum(DetailedScores(a)) <= 2.9
  {
    SectionsScoreClosedForm(a.sections);
    ContentLengthValues(a.readability.wordCount.GetOr(0));
    assert CriterionScore(a, SectionsCompleteness) == 0.0;
    assert CriterionScore(a, ContentLength) < 4.0;
    WeightedSumOfScores(a);
  }
}
