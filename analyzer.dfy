/** The feature extractor (src/text_analyzer.py): skills, keywords, projects, contact details,
    sections and readability of a resume text, the whole analysis, and a comparison with a
    job's keyword list.  Tokenisation, sentence splitting, POS tagging and the regular
    expressions are library calls: their results are inputs (`Nlp`). */
module Analyzer {
  import opened Common
  import opened Sorting

  /** category -> skills, in insertion order (the skills database and the skills found) */
  type SkillMap = seq<(string, seq<string>)>

  // ---------------------------------------------------------------- extract_skills

  /** every category of the database with the skills the search finds in it, empty ones included */
  function Categories(db: SkillMap, found: string -> bool): (r: SkillMap)
    ensures |r| == |db|
    ensures forall i :: 0 <= i < |db| ==> r[i] == (db[i].0, Filter(db[i].1, found))
  {
    seq(|db|, i requires 0 <= i < |db| => (db[i].0, Filter(db[i].1, found)))
  }

  /** the dict comprehension that drops categories with no skill found */
  function NonEmpty(m: SkillMap): (r: SkillMap)
    ensures forall e :: e in r <==> e in m && e.1 != []
    decreases |m|
  {
    if m == [] then []
    else if m[0].1 != [] then [m[0]] + NonEmpty(m[1..])
    else NonEmpty(m[1..])
  }

  /** the skills extract_skills returns; `found(skill)` is the word-boundary search for the
      lowercased skill in the lowercased text */
  function SkillsFound(db: SkillMap, found: string -> bool): SkillMap {
    NonEmpty(Categories(db, found))
  }

  method ExtractSkills(db: SkillMap, found: string -> bool) returns (skills: SkillMap)
    ensures skills == SkillsFound(db, found)
  {
    var all: SkillMap := [];
    for c := 0 to |db|
      invariant |all| == c
      invariant forall i :: 0 <= i < c ==> all[i] == (db[i].0, Filter(db[i].1, found))
    {
      var hits := MatchSkills(db[c].1, found);
      all := all + [(db[c].0, hits)];
    }
    assert all == Categories(db, found);
    skills := NonEmpty(all);
  }

  /** the inner loop: the skills of one category found in the text */
  method MatchSkills(list: seq<string>, found: string -> bool) returns (hits: seq<string>)
    ensures hits == Filter(list, found)
  {
    hits := [];
    for j := 0 to |list|
      invariant hits == Filter(list[..j], found)
    {
      assert list[..j + 1] == list[..j] + [list[j]];
      FilterAppend(list[..j], list[j], found);
      if found(list[j]) {
        hits := hits + [list[j]];
      }
    }
    assert list[..|list|] == list;
  }

  lemma {:induction false} NonEmptyIsDict(m: SkillMap)
    requires IsDict(m)
    ensures IsDict(NonEmpty(m))
    decreases |m|
  {
    if m != [] {
      DictTail(m);
      NonEmptyIsDict(m[1..]);
      if m[0].1 != [] {
        var t := NonEmpty(m[1..]);
        if HasKey(t, m[0].0) {
          KeysOfSubset(t, m[1..], m[0].0);
        }
        DictCons(m[0], t);
      }
    }
  }

  lemma SkillsFoundSound(db: SkillMap, found: string -> bool, e: (string, seq<string>))
    requires IsDict(db) && e in SkillsFound(db, found)
    ensures e.1 != [] && HasKey(db, e.0) && e.1 == Filter(Lookup(db, e.0), found)
  {
    var all := Categories(db, found);
    assert e in all;
    var i :| 0 <= i < |all| && all[i] == e;
    LookupAt(db, i);
  }

  lemma SkillsFoundComplete(db: SkillMap, found: string -> bool, i: nat)
    requires i < |db| && Filter(db[i].1, found) != []
    ensures (db[i].0, Filter(db[i].1, found)) in SkillsFound(db, found)
  {
    var all := Categories(db, found);
    assert all[i] == (db[i].0, Filter(db[i].1, found));
    assert all[i] in all;
  }

  /** extract_skills never returns an empty category; each category it returns holds exactly
      the skills of that database category that were found, in database order; every database
      category with a skill found is returned; and the result is again a dict. */
  lemma ExtractSkillsSpec(db: SkillMap, found: string -> bool)
    requires IsDict(db)
    ensures forall e :: e in SkillsFound(db, found) ==>
              e.1 != [] && HasKey(db, e.0) && e.1 == Filter(Lookup(db, e.0), found)
    ensures forall i :: 0 <= i < |db| && Filter(db[i].1, found) != [] ==>
              (db[i].0, Filter(db[i].1, found)) in SkillsFound(db, found)
    ensures IsDict(SkillsFound(db, found))
  {
    forall e | e in SkillsFound(db, found)
      ensures e.1 != [] && HasKey(db, e.0) && e.1 == Filter(Lookup(db, e.0), found)
    {
      SkillsFoundSound(db, found, e);
    }
    forall i | 0 <= i < |db| && Filter(db[i].1, found) != []
      ensures (db[i].0, Filter(db[i].1, found)) in SkillsFound(db, found)
    {
      SkillsFoundComplete(db, found, i);
    }
    var all := Categories(db, found);
    assert Keys(all) == Keys(db);
    NonEmptyIsDict(all);
  }

  // ---------------------------------------------------------------- extract_keywords

  /** the POS tagger, or the LookupError raised when its model is missing */
  datatype Tagger = NoTagger | Tagger(tagAt: (seq<string>, nat) -> string)

  /** token.isalpha() and token not in stop_words and len(token) > 2 */
  predicate KeepToken(t: string, stopWords: set<string>) {
    IsAlpha(t) && t !in stopWords && |t| > 2
  }

  function FilteredTokens(tokens: seq<string>, stopWords: set<string>): (r: seq<string>)
    ensures forall t :: t in r <==> t in tokens && KeepToken(t, stopWords)
  {
    Filter(tokens, t => KeepToken(t, stopWords))
  }

  predicate NounOrAdjective(tag: string) {
    StartsWith(tag, "NN") || StartsWith(tag, "JJ")
  }

  /** the tokens from position i on whose tag starts with NN or JJ */
  function TaggedFrom(ws: seq<string>, tagAt: (seq<string>, nat) -> string, i: nat): (r: seq<string>)
    ensures forall w :: w in r ==> w in ws
    decreases |ws| - i
  {
    if i >= |ws| then []
    else (if NounOrAdjective(tagAt(ws, i)) then [ws[i]] else []) + TaggedFrom(ws, tagAt, i + 1)
  }

  /** the candidate keywords: the kept tokens, the nouns and adjectives among them when the
      tagger is available */
  function Candidates(tokens: seq<string>, stopWords: set<string>, tagger: Tagger): (r: seq<string>)
    ensures forall w :: w in r ==> w in tokens && KeepToken(w, stopWords)
  {
    var ws := FilteredTokens(tokens, stopWords);
    match tagger
    case NoTagger => ws
    case Tagger(tagAt) => TaggedFrom(ws, tagAt, 0)
  }

  /** Counter(words).most_common(20): the distinct words in order of first occurrence, stably
      sorted by frequency, the first 20 */
  function TopKeywords(words: seq<string>): seq<string> {
    Take(SortDesc(Dedup(words), w => Count(words, w) as real), 20)
  }

  /** extract_keywords; `tokens` is word_tokenize of the lowercased text */
  function ExtractKeywords(tokens: seq<string>, stopWords: set<string>, tagger: Tagger): seq<string> {
    TopKeywords(Candidates(tokens, stopWords, tagger))
  }

  /** A candidate that is not among the top 20 is no more frequent than any that is. */
  lemma TopKeywordsCutoff(ws: seq<string>, w: string)
    requires w in ws && w !in TopKeywords(ws)
    ensures |TopKeywords(ws)| == 20
    ensures forall x :: x in TopKeywords(ws) ==> Count(ws, x) >= Count(ws, w)
  {
    var key := (v: string) => Count(ws, v) as real;
    var d := Dedup(ws);
    var s := SortDesc(d, key);
    var r := Take(s, 20);
    SortDescSorted(d, key);
    assert w in multiset(d);
    assert w in multiset(s);
    var k :| 0 <= k < |s| && s[k] == w;
    assert k >= 20;
    forall x | x in r ensures Count(ws, x) >= Count(ws, w) {
      var i :| 0 <= i < |r| && r[i] == x;
      assert key(s[i]) >= key(s[k]);
    }
  }

  /** The top-keyword list has 20 words or every distinct candidate. */
  lemma TopKeywordsLength(ws: seq<string>)
    ensures |TopKeywords(ws)| == (if |Dedup(ws)| <= 20 then |Dedup(ws)| else 20)
  {
  }

  /** The top-keyword list has no repeats and holds only candidates. */
  lemma TopKeywordsDistinct(ws: seq<string>)
    ensures Distinct(TopKeywords(ws))
    ensures forall w :: w in TopKeywords(ws) ==> w in ws
  {
    var d := Dedup(ws);
    var s := SortDesc(d, w => Count(ws, w) as real);
    assert TopKeywords(ws) == Take(s, 20);
    MultisetDistinct(s, d);
    forall w | w in Take(s, 20) ensures w in ws {
      assert w in multiset(s);
      assert w in d;
    }
  }

  /** The top-keyword list is in non-increasing frequency. */
  lemma TopKeywordsOrdered(ws: seq<string>)
    ensures forall i, j :: 0 <= i < j < |TopKeywords(ws)| ==>
              Count(ws, TopKeywords(ws)[i]) >= Count(ws, TopKeywords(ws)[j])
  {
    var key := (w: string) => Count(ws, w) as real;
    var s := SortDesc(Dedup(ws), key);
    SortDescSorted(Dedup(ws), key);
    assert TopKeywords(ws) == Take(s, 20);
    forall i, j | 0 <= i < j < |TopKeywords(ws)|
      ensures Count(ws, TopKeywords(ws)[i]) >= Count(ws, TopKeywords(ws)[j])
    {
      assert key(s[i]) >= key(s[j]);
    }
  }

  /** Keywords are at most 20 distinct kept tokens in non-increasing frequency; there are 20 of
      them or all the candidates; a candidate left out is no more frequent than any returned. */
  lemma ExtractKeywordsSpec(tokens: seq<string>, stopWords: set<string>, tagger: Tagger)
    ensures var ws := Candidates(tokens, stopWords, tagger);
            var r := ExtractKeywords(tokens, stopWords, tagger);
            && |r| <= 20
            && Distinct(r)
            && (forall w :: w in r ==> w in tokens && IsAlpha(w) && |w| > 2 && w !in stopWords)
            && (forall i, j :: 0 <= i < j < |r| ==> Count(ws, r[i]) >= Count(ws, r[j]))
            && |r| == (if |Dedup(ws)| <= 20 then |Dedup(ws)| else 20)
            && (forall w :: w in ws && w !in r ==>
                  |r| == 20 && forall x :: x in r ==> Count(ws, x) >= Count(ws, w))
  {
    var ws := Candidates(tokens, stopWords, tagger);
    TopKeywordsLength(ws);
    TopKeywordsDistinct(ws);
    TopKeywordsOrdered(ws);
    forall w | w in ws && w !in TopKeywords(ws)
      ensures |TopKeywords(ws)| == 20 && forall x :: x in TopKeywords(ws) ==> Count(ws, x) >= Count(ws, w)
    {
      TopKeywordsCutoff(ws, w);
    }
  }

  // ---------------------------------------------------------------- detect_projects

  const ProjectIndicators: seq<string> :=
    ["developed", "built", "created", "designed", "implemented",
     "project", "application", "system", "website", "app"]

  /** any(keyword in text for keyword in keywords) */
  predicate AnyIn(text: string, keywords: seq<string>) {
    exists k :: 0 <= k < |keywords| && Contains(text, keywords[k])
  }

  /** a sentence that names a project indicator and has more than 8 words */
  predicate IsProjectSentence(s: string) {
    AnyIn(Lower(s), ProjectIndicators) && WordCount(s) > 8
  }

  /** the project sentences, stripped, in document order */
  function ProjectSentences(sentences: seq<string>): seq<string>
    decreases |sentences|
  {
    if sentences == [] then []
    else
      var last := sentences[|sentences| - 1];
      ProjectSentences(sentences[..|sentences| - 1]) + (if IsProjectSentence(last) then [Strip(last)] else [])
  }

  /** detect_projects; `sentences` is sent_tokenize of the text */
  method DetectProjects(sentences: seq<string>) returns (projects: seq<string>)
    ensures projects == Take(ProjectSentences(sentences), 5)
  {
    var found: seq<string> := [];
    for i := 0 to |sentences|
      invariant found == ProjectSentences(sentences[..i])
    {
      assert sentences[..i + 1][..i] == sentences[..i];
      if IsProjectSentence(sentences[i]) {
        found := found + [Strip(sentences[i])];
      }
    }
    assert sentences[..|sentences|] == sentences;
    projects := Take(found, 5);
  }

  /** Earlier sentences give earlier projects. */
  lemma {:induction false} ProjectSentencesAppend(a: seq<string>, b: seq<string>)
    ensures ProjectSentences(a + b) == ProjectSentences(a) + ProjectSentences(b)
    decreases |b|
  {
    if b == [] {
      assert a + b == a;
    } else {
      var b' := b[..|b| - 1];
      assert (a + b)[..|a + b| - 1] == a + b';
      assert (a + b)[|a + b| - 1] == b[|b| - 1];
      ProjectSentencesAppend(a, b');
    }
  }

  /** Each project is a stripped project sentence of the text with more than 8 words. */
  lemma {:induction false} ProjectSentencesSpec(sentences: seq<string>)
    ensures forall p :: p in ProjectSentences(sentences) ==>
              WordCount(p) > 8 &&
              exists s :: s in sentences && IsProjectSentence(s) && p == Strip(s)
    decreases |sentences|
  {
    if sentences != [] {
      var init := sentences[..|sentences| - 1];
      var last := sentences[|sentences| - 1];
      ProjectSentencesSpec(init);
      StripKeepsWordCount(last);
      forall p | p in ProjectSentences(sentences)
        ensures WordCount(p) > 8 && exists s :: s in sentences && IsProjectSentence(s) && p == Strip(s)
      {
        if p in ProjectSentences(init) {
          var s :| s in init && IsProjectSentence(s) && p == Strip(s);
          assert s in sentences;
        } else {
          assert p == Strip(last);
        }
      }
    }
  }

  /** detect_projects returns at most 5 projects, each a stripped project sentence. */
  lemma DetectProjectsSpec(sentences: seq<string>)
    ensures |Take(ProjectSentences(sentences), 5)| <= 5
    ensures forall p :: p in Take(ProjectSentences(sentences), 5) ==>
              WordCount(p) > 8 &&
              exists s :: s in sentences && IsProjectSentence(s) && p == Strip(s)
  {
    ProjectSentencesSpec(sentences);
  }

  // ---------------------------------------------------------------- analyze_contact_info

  datatype ContactField = Email | Phone | LinkedIn | GitHub

  /** the matches of the four contact patterns, in text order: emails and phones in the text,
      LinkedIn and GitHub links in the lowercased text; a phone match is the pattern's one
      capture group, the optional country-code prefix */
  datatype ContactMatches = ContactMatches(
    emails: seq<string>, phones: seq<string>, linkedins: seq<string>, githubs: seq<string>)

  function MatchesOf(m: ContactMatches, f: ContactField): seq<string> {
    match f
    case Email => m.emails
    case Phone => m.phones
    case LinkedIn => m.linkedins
    case GitHub => m.githubs
  }

  /** analyze_contact_info: a field is present exactly when its pattern matched, with the first match. */
  method AnalyzeContactInfo(m: ContactMatches) returns (contact: map<ContactField, string>)
    ensures forall f :: f in contact <==> MatchesOf(m, f) != []
    ensures forall f :: f in contact ==> contact[f] == MatchesOf(m, f)[0]
  {
    contact := map[];
    if m.emails != [] {
      contact := contact[Email := m.emails[0]];
    }
    if m.phones != [] {
      contact := contact[Phone := m.phones[0]];
    }
    if m.linkedins != [] {
      contact := contact[LinkedIn := m.linkedins[0]];
    }
    if m.githubs != [] {
      contact := contact[GitHub := m.githubs[0]];
    }
  }

  // ---------------------------------------------------------------- detect_sections

  datatype Section =
    Contact | Summary | Experience | Education | Skills | Projects | Certifications | Achievements

  /** the order of the sections table */
  const SectionOrder: seq<Section> :=
    [Contact, Summary, Experience, Education, Skills, Projects, Certifications, Achievements]

  lemma SectionListed(s: Section)
    ensures s in SectionOrder
  {
    match s
    case Contact => assert SectionOrder[0] == s;
    case Summary => assert SectionOrder[1] == s;
    case Experience => assert SectionOrder[2] == s;
    case Education => assert SectionOrder[3] == s;
    case Skills => assert SectionOrder[4] == s;
    case Projects => assert SectionOrder[5] == s;
    case Certifications => assert SectionOrder[6] == s;
    case Achievements => assert SectionOrder[7] == s;
  }

  function SectionKey(s: Section): string {
    match s
    case Contact => "contact"
    case Summary => "summary"
    case Experience => "experience"
    case Education => "education"
    case Skills => "skills"
    case Projects => "projects"
    case Certifications => "certifications"
    case Achievements => "achievements"
  }

  function SectionKeywords(s: Section): seq<string> {
    match s
    case Contact => ["contact", "email", "phone", "address", "linkedin"]
    case Summary => ["summary", "profile", "objective", "about"]
    case Experience => ["experience", "work", "employment", "career", "professional"]
    case Education => ["education", "degree", "university", "college", "school"]
    case Skills => ["skills", "technical", "technologies", "competencies"]
    case Projects => ["projects", "portfolio", "work samples"]
    case Certifications => ["certifications", "certificates", "licensed"]
    case Achievements => ["achievements", "awards", "honors", "accomplishments"]
  }

  /** detect_sections: every section is a key, true exactly when one of its keywords occurs
      in the lowercased text. */
  function DetectSections(text: string): (r: map<Section, bool>)
    ensures forall s :: s in r
    ensures forall s :: r[s] <==> AnyIn(Lower(text), SectionKeywords(s))
  {
    assert forall s :: s in SectionOrder by {
      forall s ensures s in SectionOrder { SectionListed(s); }
    }
    map s: Section | s in SectionOrder :: AnyIn(Lower(text), SectionKeywords(s))
  }

  lemma ContainsPrefix(s: string, t: string, p: string)
    requires Contains(s, t) && StartsWith(t, p)
    ensures Contains(s, p)
  {
    var k: nat :| k <= |s| && OccursAt(s, t, k);
    assert s[k..k + |t|][..|p|] == t[..|p|] == p;
    assert s[k..k + |p|] == s[k..k + |t|][..|p|];
    assert OccursAt(s, p, k);
  }

  /** The "work samples" keyword of the projects section contains "work", so a text that has
      it also has the experience section. */
  lemma WorkSamplesMeansExperience(text: string)
    requires Contains(Lower(text), "work samples")
    ensures DetectSections(text)[Projects] && DetectSections(text)[Experience]
  {
    ContainsPrefix(Lower(text), "work samples", "work");
    assert Contains(Lower(text), SectionKeywords(Experience)[1]);
    assert Contains(Lower(text), SectionKeywords(Projects)[2]);
  }

  /** sum(sections.values()) */
  function SectionsPresent(sections: map<Section, bool>): (n: nat)
    ensures n <= |SectionOrder|
  {
    |Filter(SectionOrder, s => s in sections && sections[s])|
  }

  // ---------------------------------------------------------------- calculate_readability

  /** the readability dict; a missing key is None */
  datatype Readability = Readability(
    readabilityScore: Option<real>, avgSentenceLength: Option<real>, wordCount: Option<nat>,
    sentenceCount: Option<nat>, complexityRatio: Option<real>)

  /** the empty readability dict */
  const NoMetrics := Readability(None, None, None, None, None)

  predicate IsComplexWord(w: string) { |w| > 6 }

  /** calculate_readability, from TextBlob's words and its number of sentences */
  function CalculateReadability(words: seq<string>, sentences: nat): (r: Readability)
    ensures sentences == 0 || |words| == 0 ==>
              r == Readability(Some(0.0), Some(0.0), Some(|words|), None, None)
    ensures sentences > 0 && |words| > 0 ==>
              && r.wordCount == Some(|words|) && r.sentenceCount == Some(sentences)
              && r.readabilityScore.Some? && 1.0 <= r.readabilityScore.value <= 10.0
              && r.avgSentenceLength.Some? && 0.0 <= r.avgSentenceLength.value
              && r.complexityRatio.Some? && 0.0 <= r.complexityRatio.value <= 1.0
  {
    if sentences == 0 || |words| == 0 then
      Readability(Some(0.0), Some(0.0), Some(|words|), None, None)
    else
      var avg := |words| as real / sentences as real;
      var complex := |Filter(words, IsComplexWord)|;
      var ratio := complex as real / |words| as real;
      var raw := 10.0 - avg / 3.0 - ratio * 5.0;
      var score := if raw < 1.0 then 1.0 else raw;
      FractionBounds(complex, |words|);
      Round2Within(score, 100, 1000);
      Round2NonNegative(avg);
      Round2Within(ratio, 0, 100);
      Readability(Some(Round2(score)), Some(Round2(avg)), Some(|words|), Some(sentences), Some(Round2(ratio)))
  }

  // ---------------------------------------------------------------- analyze_resume

  datatype SummaryStats = SummaryStats(
    totalSkillsFound: nat, skillsCategories: nat, projectsFound: nat, sectionsPresent: nat,
    hasContactInfo: bool)

  /** the analysis dict; `error` is present only for blank input, `stats` only otherwise */
  datatype Analysis = Analysis(
    error: Option<string>, skills: SkillMap, keywords: seq<string>, projects: seq<string>,
    contact: map<ContactField, string>, sections: map<Section, bool>, readability: Readability,
    stats: Option<SummaryStats>)

  /** what the NLP and regex libraries report about one text */
  datatype Nlp = Nlp(
    tokens: seq<string>, tagger: Tagger, sentences: seq<string>, blobWords: seq<string>,
    blobSentences: nat, contactMatches: ContactMatches, skillFound: string -> bool)

  /** the skills database, the job keyword database and the stopword list */
  datatype Databases = Databases(
    skills: SkillMap, jobKeywords: map<string, seq<string>>, stopWords: set<string>)

  const BlankError := "No text provided for analysis"

  /** the result for empty or whitespace-only text */
  const BlankAnalysis := Analysis(Some(BlankError), [], [], [], map[], map[], NoMetrics, None)

  method AnalyzeResume(text: string, nlp: Nlp, db: Databases) returns (a: Analysis)
    ensures Strip(text) == [] ==> a == BlankAnalysis
    ensures Strip(text) != [] ==>
              && a.error == None
              && a.skills == SkillsFound(db.skills, nlp.skillFound)
              && a.keywords == ExtractKeywords(nlp.tokens, db.stopWords, nlp.tagger)
              && a.projects == Take(ProjectSentences(nlp.sentences), 5)
              && (forall f :: f in a.contact <==> MatchesOf(nlp.contactMatches, f) != [])
              && (forall f :: f in a.contact ==> a.contact[f] == MatchesOf(nlp.contactMatches, f)[0])
              && a.sections == DetectSections(text)
              && a.readability == CalculateReadability(nlp.blobWords, nlp.blobSentences)
              && a.stats == Some(SummaryStats(
                   SumLengths(a.skills), |a.skills|, |a.projects|, SectionsPresent(a.sections),
                   |a.contact| > 0))
  {
    if Strip(text) == [] {
      return BlankAnalysis;
    }
    var skills := ExtractSkills(db.skills, nlp.skillFound);
    var keywords := ExtractKeywords(nlp.tokens, db.stopWords, nlp.tagger);
    var projects := DetectProjects(nlp.sentences);
    var contact := AnalyzeContactInfo(nlp.contactMatches);
    var sections := DetectSections(text);
    var readability := CalculateReadability(nlp.blobWords, nlp.blobSentences);
    var stats := SummaryStats(
      SumLengths(skills), |skills|, |projects|, SectionsPresent(sections), |contact| > 0);
    a := Analysis(None, skills, keywords, projects, contact, sections, readability, Some(stats));
  }

  // ---------------------------------------------------------------- compare_with_job

  datatype JobMatch =
    | TitleNotFound(error: string, missing: seq<string>, matchScore: real)
    | Compared(required: seq<string>, matched: seq<string>, missing: seq<string>,
               matchScore: real, recommendations: seq<string>)

  /** keyword.lower() in resume_text.lower() */
  predicate KeywordMatched(resumeText: string, keyword: string) {
    Contains(Lower(resumeText), Lower(keyword))
  }

  function MatchedOf(required: seq<string>, resumeText: string): seq<string>
    decreases |required|
  {
    if required == [] then []
    else
      var last := required[|required| - 1];
      MatchedOf(required[..|required| - 1], resumeText) + (if KeywordMatched(resumeText, last) then [last] else [])
  }

  function MissingOf(required: seq<string>, resumeText: string): seq<string>
    decreases |required|
  {
    if required == [] then []
    else
      var last := required[|required| - 1];
      MissingOf(required[..|required| - 1], resumeText) + (if KeywordMatched(resumeText, last) then [] else [last])
  }

  /** len(matched) / len(required) * 100, rounded to 2 places; 0 for an empty list */
  function MatchScore(matched: nat, required: nat): real {
    if required == 0 then 0.0 else Round2(matched as real / required as real * 100.0)
  }

  function Recommendation(keyword: string): string {
    "Add '" + keyword + "' to relevant sections"
  }

  function Recommendations(missing: seq<string>): (r: seq<string>)
    ensures |r| == |Take(missing, 5)|
  {
    var first := Take(missing, 5);
    seq(|first|, i requires 0 <= i < |first| => Recommendation(first[i]))
  }

  function NotFoundError(jobTitle: string): string {
    "Job title \"" + jobTitle + "\" not found in database"
  }

  method CompareWithJob(a: Analysis, jobTitle: string, jobKeywords: map<string, seq<string>>)
    returns (m: JobMatch)
    ensures Lower(jobTitle) !in jobKeywords ==> m == TitleNotFound(NotFoundError(jobTitle), [], 0.0)
    ensures Lower(jobTitle) in jobKeywords ==>
              var required := jobKeywords[Lower(jobTitle)];
              var text := Join(a.keywords, " ");
              && m.Compared?
              && m.required == required
              && m.matched == MatchedOf(required, text)
              && m.missing == MissingOf(required, text)
              && m.matchScore == MatchScore(|m.matched|, |required|)
              && m.recommendations == Recommendations(m.missing)
  {
    var title := Lower(jobTitle);
    if title !in jobKeywords {
      return TitleNotFound(NotFoundError(jobTitle), [], 0.0);
    }
    var required := jobKeywords[title];
    var text := Join(a.keywords, " ");
    var matched: seq<string> := [];
    var missing: seq<string> := [];
    for i := 0 to |required|
      invariant matched == MatchedOf(required[..i], text)
      invariant missing == MissingOf(required[..i], text)
    {
      assert required[..i + 1][..i] == required[..i];
      if KeywordMatched(text, required[i]) {
        matched := matched + [required[i]];
      } else {
        missing := missing + [required[i]];
      }
    }
    assert required[..|required|] == required;
    m := Compared(required, matched, missing, MatchScore(|matched|, |required|), Recommendations(missing));
  }

  /** Matched and missing split the required keywords: each keyword lands in exactly one of
      them, according to whether it matched, and none is lost or added. */
  lemma MatchPartition(required: seq<string>, text: string)
    ensures |MatchedOf(required, text)| + |MissingOf(required, text)| == |required|
    ensures multiset(MatchedOf(required, text)) + multiset(MissingOf(required, text)) == multiset(required)
    ensures forall k :: k in MatchedOf(required, text) ==> k in required && KeywordMatched(text, k)
    ensures forall k :: k in MissingOf(required, text) ==> k in required && !KeywordMatched(text, k)
  {
    MatchCounts(required, text);
    MatchSides(required, text);
  }

  lemma {:induction false} MatchCounts(required: seq<string>, text: string)
    ensures multiset(MatchedOf(required, text)) + multiset(MissingOf(required, text)) == multiset(required)
    decreases |required|
  {
    if required != [] {
      var init := required[..|required| - 1];
      var last := required[|required| - 1];
      MatchCounts(init, text);
      assert required == init + [last];
    }
  }

  lemma {:induction false} MatchSides(required: seq<string>, text: string)
    ensures forall k :: k in MatchedOf(required, text) ==> k in required && KeywordMatched(text, k)
    ensures forall k :: k in MissingOf(required, text) ==> k in required && !KeywordMatched(text, k)
    decreases |required|
  {
    if required != [] {
      var init := required[..|required| - 1];
      MatchSides(init, text);
      assert required == init + [required[|required| - 1]];
    }
  }

  lemma DivideBySelf(n: nat)
    requires n > 0
    ensures n as real / n as real == 1.0
  {
  }

  /** The match score is a percentage. */
  lemma MatchScoreRange(matched: nat, required: nat)
    requires matched <= required
    ensures 0.0 <= MatchScore(matched, required) <= 100.0
    ensures 0 < matched == required ==> MatchScore(matched, required) == 100.0
  {
    if required > 0 {
      var x := matched as real / required as real * 100.0;
      assert matched as real / required as real <= 1.0;
      Round2Within(x, 0, 10000);
      if matched == required {
        DivideBySelf(required);
        assert x == 100.0;
        assert (x * 100.0 + 0.5).Floor == 10000;
      }
    }
  }

  /** At most five recommendations, one per missing keyword, in order. */
  lemma RecommendationsSpec(missing: seq<string>)
    ensures |Recommendations(missing)| <= 5
    ensures forall i :: 0 <= i < |Recommendations(missing)| ==>
              Recommendations(missing)[i] == Recommendation(missing[i])
  {
  }

  /** Matching is by substring of the joined keywords, so a required "Java" counts as found
      in a resume whose only keyword is "javascript". */
  lemma SubstringMatchQuirk()
    ensures KeywordMatched(Join(["javascript"], " "), "Java")
  {
    assert Join(["javascript"], " ") == "javascript";
    assert Lower("javascript")[..4] == "java" == Lower("Java");
    PrefixContained(Lower("javascript"), Lower("Java"));
  }
}
