/**
 * Resume preparation: the ATS score and its advice, the customised template sections, the
 * ATS keywords, the skill-specific interview questions, the project and skill groupings, the
 * career-specific skill priorities and keywords, the formatting of the resume builder's
 * input, and the plain-text resume.
 */
module ResumePrep {
  import opened Common
  import opened Text

  /** The fields of the student's data that the resume guidance reads; a missing field is empty. */
  datatype StudentData = StudentData(education: string, experience: string, skills: seq<string>)

  // ---------------------------------------------------------------------------------------
  // ATS score
  // ---------------------------------------------------------------------------------------

  /** The three kinds of advice `_get_ats_improvement_recommendations` gives. */
  datatype AtsAdvice = Excellent | Good | NeedsWork

  function Advice(score: int): AtsAdvice
  {
    if score >= 80 then Excellent else if score >= 60 then Good else NeedsWork
  }

  const ExcellentAdvice: seq<string> := ["Excellent ATS optimization! Your resume should pass most ATS systems."]

  const GoodAdvice: seq<string> :=
    ["Good ATS optimization. Consider adding more relevant keywords.",
     "Ensure all sections are properly formatted for ATS compatibility."]

  const NeedsWorkAdvice: seq<string> :=
    ["Focus on adding more relevant keywords from job descriptions.",
     "Ensure proper section headers and formatting.",
     "Include quantifiable achievements and metrics.",
     "Use standard fonts and avoid graphics or tables."]

  /** The advice lines of each kind. */
  function AdviceLines(a: AtsAdvice): (r: seq<string>)
    ensures |r| == match a case Excellent => 1 case Good => 2 case NeedsWork => 4
  {
    match a
    case Excellent => ExcellentAdvice
    case Good => GoodAdvice
    case NeedsWork => NeedsWorkAdvice
  }

  datatype AtsScore = AtsScore(overall: int, recommendations: seq<string>)

  /** The points each present section earns, plus the fixed 30 for keywords and 10 for format. */
  function RawAtsScore(d: StudentData): int
  {
    (if |d.education| > 0 then 15 else 0) + (if |d.experience| > 0 then 20 else 0)
    + (if |d.skills| > 0 then 25 else 0) + 30 + 10
  }

  /** `_calculate_ats_score`: the points added up, capped at 100, with the advice for the sum. */
  method CalculateAtsScore(d: StudentData) returns (r: AtsScore)
    ensures r.overall == Min(RawAtsScore(d), 100)
    ensures r.recommendations == AdviceLines(Advice(RawAtsScore(d)))
  {
    var score := 0;
    if |d.education| > 0 {
      score := score + 15;
    }
    if |d.experience| > 0 {
      score := score + 20;
    }
    if |d.skills| > 0 {
      score := score + 25;
    }
    score := score + 30;
    score := score + 10;
    r := AtsScore(Min(score, 100), AdviceLines(Advice(score)));
  }

  /**
   * The score lies in [40, 100], the cap never applies, and the score is 100 exactly when
   * all three sections are present.
   */
  lemma AtsScoreSpec(d: StudentData)
    ensures 40 <= RawAtsScore(d) <= 100
    ensures Min(RawAtsScore(d), 100) == RawAtsScore(d)
    ensures RawAtsScore(d) == 100 <==> |d.education| > 0 && |d.experience| > 0 && |d.skills| > 0
  {
  }

  /** Filling in a section never lowers the score. */
  lemma AtsScoreMonotone(d: StudentData, e: StudentData)
    requires |d.education| > 0 ==> |e.education| > 0
    requires |d.experience| > 0 ==> |e.experience| > 0
    requires |d.skills| > 0 ==> |e.skills| > 0
    ensures RawAtsScore(d) <= RawAtsScore(e)
  {
  }

  /**
   * The advice is "excellent" exactly when skills and another section are present, "needs
   * work" exactly when neither experience nor skills are, and "good" otherwise.
   */
  lemma AtsAdviceSpec(d: StudentData)
    ensures var a := Advice(RawAtsScore(d));
      var edu, exp, sk := |d.education| > 0, |d.experience| > 0, |d.skills| > 0;
      (a == Excellent <==> sk && (edu || exp))
      && (a == Good <==> (exp || sk) && !(sk && (edu || exp)))
      && (a == NeedsWork <==> !exp && !sk)
  {
  }

  // ---------------------------------------------------------------------------------------
  // Customised sections
  // ---------------------------------------------------------------------------------------

  /** The `sections` of a resume template. */
  datatype Sections = Sections(summary: string, technicalSkills: seq<string>, experienceFormat: string,
                               educationFormat: string, projectsFormat: string)

  /** The opening sentence listing the first three skills. */
  function Highlights(skills: seq<string>): string
  {
    "Recent graduate with strong foundation in " + Join(Take(skills, 3), ", ") + ". "
  }

  /**
   * `_customize_resume_sections` on a copy of the template's sections: the summary gains the
   * skill highlights when there are skills, and the education and experience formats gain
   * the student's text when it is non-empty.
   */
  function CustomizeSections(t: Sections, d: StudentData, skills: seq<string>): (r: Sections)
  {
    var s1 := if |skills| > 0 then t.(summary := Highlights(skills) + t.summary) else t;
    var s2 := if |d.education| > 0 then s1.(educationFormat := d.education + " | " + t.educationFormat) else s1;
    if |d.experience| > 0 then s2.(experienceFormat := d.experience + "\n" + t.experienceFormat) else s2
  }

  /**
   * Each template text is kept as the end of its customised version, the first three skills
   * are named in the summary, an empty input leaves its section as it was, and the other
   * sections never change.
   */
  lemma CustomizeSectionsSpec(t: Sections, d: StudentData, skills: seq<string>, i: nat)
    ensures var r := CustomizeSections(t, d, skills);
      |t.summary| <= |r.summary| && r.summary[|r.summary| - |t.summary|..] == t.summary
      && (|skills| == 0 <==> r.summary == t.summary)
      && (i < Min(3, |skills|) ==> Contains(r.summary, skills[i]))
      && (|d.education| == 0 <==> r.educationFormat == t.educationFormat)
      && (|d.experience| == 0 <==> r.experienceFormat == t.experienceFormat)
      && r.technicalSkills == t.technicalSkills && r.projectsFormat == t.projectsFormat
  {
    var r := CustomizeSections(t, d, skills);
    if |skills| > 0 {
      var h := Highlights(skills);
      assert |h| > 0;
      assert r.summary[|r.summary| - |t.summary|..] == t.summary;
      if i < Min(3, |skills|) {
        var front := "Recent graduate with strong foundation in ";
        var joined := Join(Take(skills, 3), ", ");
        JoinContainsParts(Take(skills, 3), ", ", i);
        ContainsConcat(front, joined, skills[i]);
        ContainsConcat(front + joined, ". ", skills[i]);
        ContainsConcat(h, t.summary, skills[i]);
      }
    } else {
      assert r.summary[|r.summary| - |t.summary|..] == t.summary;
    }
    if |d.education| > 0 {
      assert |r.educationFormat| > |t.educationFormat|;
    }
    if |d.experience| > 0 {
      assert |r.experienceFormat| > |t.experienceFormat|;
    }
  }

  // ---------------------------------------------------------------------------------------
  // ATS keywords and skill questions
  // ---------------------------------------------------------------------------------------

  /** The keyword lists of the skills, one after another (`relevant_keywords.extend`). */
  function Relevant(skills: seq<string>, keywords: Dict<seq<string>>): seq<string>
    decreases |skills|
  {
    if |skills| == 0 then []
    else Relevant(skills[..|skills| - 1], keywords) + GetOr<seq<string>>(keywords, skills[|skills| - 1], [])
  }

  /**
   * `_optimize_for_ats`: the skills' keywords without repetitions, at most fifteen. Python's
   * `set` order is not specified; the model keeps first occurrences.
   */
  method OptimizeForAts(skills: seq<string>, keywords: Dict<seq<string>>) returns (recommended: seq<string>)
    ensures recommended == Take(Dedup(Relevant(skills, keywords)), 15)
  {
    var relevant: seq<string> := [];
    var k := 0;
    while k < |skills|
      invariant 0 <= k <= |skills|
      invariant relevant == Relevant(skills[..k], keywords)
    {
      relevant := relevant + GetOr<seq<string>>(keywords, skills[k], []);
      assert skills[..k + 1][..k] == skills[..k];
      k := k + 1;
    }
    assert skills[..|skills|] == skills;
    recommended := Take(Dedup(relevant), 15);
  }

  lemma {:induction false} RelevantMembers(skills: seq<string>, keywords: Dict<seq<string>>, w: string)
    ensures w in Relevant(skills, keywords) <==> exists s :: s in skills && w in GetOr<seq<string>>(keywords, s, [])
    decreases |skills|
  {
    if |skills| > 0 {
      var init := skills[..|skills| - 1];
      RelevantMembers(init, keywords, w);
      assert skills == init + [skills[|skills| - 1]];
    }
  }

  /** The recommended keywords are distinct, at most fifteen, and each is a keyword of one of the skills. */
  lemma OptimizeForAtsSpec(skills: seq<string>, keywords: Dict<seq<string>>, w: string)
    ensures var r := Take(Dedup(Relevant(skills, keywords)), 15);
      Distinct(r) && |r| <= 15
      && (w in r ==> exists s :: s in skills && w in GetOr<seq<string>>(keywords, s, []))
  {
    RelevantMembers(skills, keywords, w);
  }

  /** The three skills with a dedicated question. */
  datatype SkillQuestion = ExceptionHandling | Overfitting | DataQuality

  function QuestionFor(skill: string): Option<SkillQuestion>
  {
    if skill == "Python Programming" then Some(ExceptionHandling)
    else if skill == "Machine Learning" then Some(Overfitting)
    else if skill == "Data Analysis" then Some(DataQuality)
    else None
  }

  function Recognised(): string -> bool
  {
    (s: string) => QuestionFor(s).Some?
  }

  datatype AskedQuestion = AskedQuestion(skill: string, question: SkillQuestion)

  function AskedSkills(qs: seq<AskedQuestion>): (r: seq<string>)
    ensures |r| == |qs|
  {
    seq(|qs|, i requires 0 <= i < |qs| => qs[i].skill)
  }

  /**
   * `_generate_skill_specific_questions`: one question for each of the first five skills
   * that has a dedicated question, in order.
   */
  method SkillSpecificQuestions(skills: seq<string>) returns (qs: seq<AskedQuestion>)
    ensures AskedSkills(qs) == Filter(Take(skills, 5), Recognised())
    ensures forall i :: 0 <= i < |qs| ==> QuestionFor(qs[i].skill) == Some(qs[i].question)
    ensures |qs| <= Min(5, |skills|)
  {
    var first := Take(skills, 5);
    qs := [];
    var k := 0;
    while k < |first|
      invariant 0 <= k <= |first|
      invariant AskedSkills(qs) == Filter(first[..k], Recognised())
      invariant forall i :: 0 <= i < |qs| ==> QuestionFor(qs[i].skill) == Some(qs[i].question)
    {
      var skill := first[k];
      assert first[..k + 1][..k] == first[..k];
      var q := QuestionFor(skill);
      if q.Some? {
        qs := qs + [AskedQuestion(skill, q.value)];
      } else {
        assert Filter(first[..k + 1], Recognised()) == Filter(first[..k], Recognised()) + [];
      }
      k := k + 1;
    }
    assert first[..|first|] == first;
  }

  // ---------------------------------------------------------------------------------------
  // Groupings
  // ---------------------------------------------------------------------------------------

  datatype ProjectCategory = DataScience | WebDevelopment | MachineLearningProjects | Automation

  datatype ProjectIdea = DataVisualisation | StatisticalAnalysis | WebApplications | Scripts
                       | PredictionModels | ClassificationProjects

  /** The four categories of `_categorize_projects` with their ideas for the skills. */
  function ProjectGroups(skills: seq<string>): seq<(ProjectCategory, seq<ProjectIdea>)>
  {
    var py := "Python Programming" in skills;
    var ml := "Machine Learning" in skills;
    [
      (DataScience, if "Data Analysis" in skills || py then [DataVisualisation, StatisticalAnalysis] else []),
      (WebDevelopment, if py then [WebApplications] else []),
      (MachineLearningProjects, if ml then [PredictionModels, ClassificationProjects] else []),
      (Automation, if py then [Scripts] else [])
    ]
  }

  /** `_categorize_projects`: the ideas of each category for the skills, empty categories dropped. */
  function CategorizeProjects(skills: seq<string>): seq<(ProjectCategory, seq<ProjectIdea>)>
  {
    Filter(ProjectGroups(skills), NonEmptyGroup<ProjectCategory, ProjectIdea>())
  }

  function NonEmptyGroup<K, V>(): ((K, seq<V>)) -> bool
  {
    (g: (K, seq<V>)) => |g.1| > 0
  }

  function CategoriesOf<K, V>(gs: seq<(K, seq<V>)>): (r: seq<K>)
    ensures |r| == |gs|
  {
    seq(|gs|, i requires 0 <= i < |gs| => gs[i].0)
  }

  /** Dropping the empty groups keeps exactly the keys that have a non-empty group. */
  lemma NonEmptyGroupsKeys<K(!new), V(!new)>(gs: seq<(K, seq<V>)>, c: K)
    ensures var r := Filter(gs, NonEmptyGroup<K, V>());
      (forall i :: 0 <= i < |r| ==> |r[i].1| > 0)
      && (c in CategoriesOf(r) <==> exists i :: 0 <= i < |gs| && gs[i].0 == c && |gs[i].1| > 0)
  {
    var r := Filter(gs, NonEmptyGroup<K, V>());
    FilterMembers(gs, NonEmptyGroup<K, V>());
    forall i | 0 <= i < |r| ensures |r[i].1| > 0 {
      assert r[i] in r;
    }
    if c in CategoriesOf(r) {
      var i :| 0 <= i < |r| && CategoriesOf(r)[i] == c;
      assert r[i] in r;
      var j :| 0 <= j < |gs| && gs[j] == r[i];
      assert gs[j].0 == c && |gs[j].1| > 0;
    }
    if exists i :: 0 <= i < |gs| && gs[i].0 == c && |gs[i].1| > 0 {
      var i :| 0 <= i < |gs| && gs[i].0 == c && |gs[i].1| > 0;
      assert gs[i] in gs;
      assert gs[i] in r;
      var j :| 0 <= j < |r| && r[j] == gs[i];
      assert CategoriesOf(r)[j] == c;
    }
  }

  /**
   * Only non-empty categories are kept; data science appears exactly for data analysis or
   * Python, web development and automation exactly for Python, machine learning exactly for
   * machine learning.
   */
  lemma CategorizeProjectsSpec(skills: seq<string>)
    ensures var r := CategorizeProjects(skills);
      var py := "Python Programming" in skills;
      (forall i :: 0 <= i < |r| ==> |r[i].1| > 0)
      && (DataScience in CategoriesOf(r) <==> "Data Analysis" in skills || py)
      && (WebDevelopment in CategoriesOf(r) <==> py)
      && (Automation in CategoriesOf(r) <==> py)
      && (MachineLearningProjects in CategoriesOf(r) <==> "Machine Learning" in skills)
  {
    var gs := ProjectGroups(skills);
    NonEmptyGroupsKeys(gs, DataScience);
    NonEmptyGroupsKeys(gs, WebDevelopment);
    NonEmptyGroupsKeys(gs, MachineLearningProjects);
    NonEmptyGroupsKeys(gs, Automation);
    assert |gs| == 4;
    assert gs[0].0 == DataScience && gs[1].0 == WebDevelopment;
    assert gs[2].0 == MachineLearningProjects && gs[3].0 == Automation;
    assert |gs[0].1| > 0 <==> "Data Analysis" in skills || "Python Programming" in skills;
    assert |gs[1].1| > 0 <==> "Python Programming" in skills;
    assert |gs[2].1| > 0 <==> "Machine Learning" in skills;
    assert |gs[3].1| > 0 <==> "Python Programming" in skills;
  }

  datatype SkillCategory = ProgrammingLanguages | ToolsAndTechnologies | SoftSkills | DomainKnowledge

  /** The category `_group_skills_by_category` gives a skill: the first test that holds. */
  function CategoryOf(skill: string): SkillCategory
  {
    if Contains(skill, "Programming") || skill in ["Python", "JavaScript", "SQL"] then ProgrammingLanguages
    else if skill in ["Machine Learning", "Data Analysis"] then ToolsAndTechnologies
    else if skill in ["Communication", "Leadership", "Problem Solving"] then SoftSkills
    else DomainKnowledge
  }

  function InCategory(c: SkillCategory): string -> bool
  {
    (s: string) => CategoryOf(s) == c
  }

  const SkillCategories: seq<SkillCategory> := [ProgrammingLanguages, ToolsAndTechnologies, SoftSkills, DomainKnowledge]

  /** The groups of the four categories in order, from per-category lists. */
  function GroupsOf(lists: seq<seq<string>>): seq<(SkillCategory, seq<string>)>
    requires |lists| == 4
  {
    Filter(seq(4, i requires 0 <= i < 4 => (SkillCategories[i], lists[i])), NonEmptyGroup<SkillCategory, string>())
  }

  /** `_group_skills_by_category`: the per-category lists filled skill by skill, empty ones dropped. */
  method GroupSkillsByCategory(skills: seq<string>) returns (r: seq<(SkillCategory, seq<string>)>)
    ensures r == GroupsOf(seq(4, i requires 0 <= i < 4 => Filter(skills, InCategory(SkillCategories[i]))))
  {
    var lists: seq<seq<string>> := [[], [], [], []];
    var k := 0;
    while k < |skills|
      invariant 0 <= k <= |skills|
      invariant |lists| == 4
      invariant forall i :: 0 <= i < 4 ==> lists[i] == Filter(skills[..k], InCategory(SkillCategories[i]))
    {
      var skill := skills[k];
      assert skills[..k + 1][..k] == skills[..k];
      var c := CategoryOf(skill);
      var j := if c == ProgrammingLanguages then 0 else if c == ToolsAndTechnologies then 1
               else if c == SoftSkills then 2 else 3;
      assert SkillCategories[j] == c;
      lists := lists[j := lists[j] + [skill]];
      k := k + 1;
    }
    assert skills[..|skills|] == skills;
    assert lists == seq(4, i requires 0 <= i < 4 => Filter(skills, InCategory(SkillCategories[i])));
    r := GroupsOf(lists);
  }

  /**
   * The per-category lists partition the skills: each skill is in the list of its category
   * and in no other, so their lengths add up to the number of skills.
   */
  lemma {:induction false} CategoryListsPartition(skills: seq<string>)
    ensures var f := (c: SkillCategory) => Filter(skills, InCategory(c));
      |f(ProgrammingLanguages)| + |f(ToolsAndTechnologies)| + |f(SoftSkills)| + |f(DomainKnowledge)| == |skills|
    ensures forall c, s :: s in Filter(skills, InCategory(c)) <==> s in skills && CategoryOf(s) == c
    decreases |skills|
  {
    forall c ensures forall s :: s in Filter(skills, InCategory(c)) <==> s in skills && CategoryOf(s) == c {
      FilterMembers(skills, InCategory(c));
    }
    if |skills| > 0 {
      CategoryListsPartition(skills[..|skills| - 1]);
    }
  }

  // ---------------------------------------------------------------------------------------
  // Career-specific priorities and keywords
  // ---------------------------------------------------------------------------------------

  datatype Priority = High | Medium

  datatype PrioritySkill = PrioritySkill(skill: string, priority: Priority)

  const CareerPriorities: Dict<seq<string>> := [
    ("Data Scientist", ["Machine Learning", "Data Analysis", "Python Programming", "Statistics"]),
    ("Software Engineer", ["Python Programming", "JavaScript", "SQL", "Problem Solving"]),
    ("Product Manager", ["Communication", "Project Management", "Critical Thinking", "Leadership"])
  ]

  function Marked(skills: seq<string>, required: seq<string>): (r: seq<PrioritySkill>)
    ensures |r| == |skills|
  {
    seq(|skills|, i requires 0 <= i < |skills| =>
      PrioritySkill(skills[i], if skills[i] in required then High else Medium))
  }

  /** The sort key `0 if High else 1`, negated for a descending sort. */
  function HighFirst(): PrioritySkill -> real
  {
    (p: PrioritySkill) => if p.priority == High then 1.0 else 0.0
  }

  /**
   * `_prioritize_skills_for_career`: each skill marked High when the career lists it (every
   * skill for an unknown career), then a stable sort putting High first.
   */
  function PrioritizeSkills(skills: seq<string>, career: string): seq<PrioritySkill>
  {
    SortDesc(Marked(skills, GetOr<seq<string>>(CareerPriorities, career, skills)), HighFirst())
  }

  /**
   * The result is a rearrangement of the marked skills (so as long as the input), High
   * before Medium, each class in input order; a skill is High exactly when the career lists
   * it, and every skill of an unknown career is High.
   */
  lemma PrioritizeSkillsSpec(skills: seq<string>, career: string)
    ensures var required := GetOr<seq<string>>(CareerPriorities, career, skills);
      var marked := Marked(skills, required);
      var r := PrioritizeSkills(skills, career);
      |r| == |skills| && multiset(r) == multiset(marked)
      && (forall i, j :: 0 <= i < j < |r| && r[j].priority == High ==> r[i].priority == High)
      && Filter(r, KeyIs(HighFirst(), 1.0)) == Filter(marked, KeyIs(HighFirst(), 1.0))
      && Filter(r, KeyIs(HighFirst(), 0.0)) == Filter(marked, KeyIs(HighFirst(), 0.0))
      && (forall i :: 0 <= i < |marked| ==> (marked[i].priority == High <==> skills[i] in required))
  {
    var required := GetOr<seq<string>>(CareerPriorities, career, skills);
    var marked := Marked(skills, required);
    var r := PrioritizeSkills(skills, career);
    assert |r| == |marked| by {
      assert |multiset(r)| == |multiset(marked)|;
    }
    SortDescStable(marked, HighFirst(), 1.0);
    SortDescStable(marked, HighFirst(), 0.0);
    forall i, j | 0 <= i < j < |r| && r[j].priority == High ensures r[i].priority == High {
      assert HighFirst()(r[i]) >= HighFirst()(r[j]);
    }
  }

  lemma UnknownCareerAllHigh(skills: seq<string>, career: string)
    requires career !in Keys(CareerPriorities)
    ensures forall p :: p in PrioritizeSkills(skills, career) ==> p.priority == High
  {
    GetNone(CareerPriorities, career);
    var marked := Marked(skills, skills);
    forall p | p in PrioritizeSkills(skills, career) ensures p.priority == High {
      assert p in multiset(marked);
      var i :| 0 <= i < |marked| && marked[i] == p;
      assert skills[i] in skills;
    }
  }

  datatype ResumeSection = SummarySection | ExperienceSection | SkillsSection | ProjectsSection

  /** Keywords per resume section. */
  datatype SectionWords = SectionWords(summary: seq<string>, experience: seq<string>, skills: seq<string>,
                                       projects: seq<string>)

  function Words(w: SectionWords, s: ResumeSection): seq<string>
  {
    match s
    case SummarySection => w.summary
    case ExperienceSection => w.experience
    case SkillsSection => w.skills
    case ProjectsSection => w.projects
  }

  /** The base keywords; the skills section starts with the student's skills. */
  function BaseKeywords(skills: seq<string>): SectionWords
  {
    SectionWords(
      ["Experienced", "Passionate", "Results-driven", "Innovative", "Collaborative"],
      ["Led", "Developed", "Implemented", "Optimized", "Delivered", "Managed"],
      skills + ["Problem-solving", "Communication", "Teamwork", "Leadership"],
      ["Built", "Created", "Designed", "Deployed", "Optimized", "Analyzed"])
  }

  const NoWords := SectionWords([], [], [], [])

  /**
   * `_get_keywords_by_section`: each section's base keywords followed by the career's own,
   * none for a career missing from the career table `specific`.
   */
  function KeywordsBySection(career: string, skills: seq<string>, specific: Dict<SectionWords>): (r: SectionWords)
  {
    var base := BaseKeywords(skills);
    var own := GetOr<SectionWords>(specific, career, NoWords);
    SectionWords(base.summary + own.summary, base.experience + own.experience, base.skills + own.skills,
                 base.projects + own.projects)
  }

  /**
   * Every section starts with its base keywords and goes on with the career's keywords; for
   * an unknown career it is the base list alone, and the skills section always starts with
   * the student's skills.
   */
  lemma KeywordsBySectionSpec(career: string, skills: seq<string>, specific: Dict<SectionWords>, s: ResumeSection)
    ensures var r := Words(KeywordsBySection(career, skills, specific), s);
      var base := Words(BaseKeywords(skills), s);
      base <= r && r[|base|..] == Words(GetOr<SectionWords>(specific, career, NoWords), s)
      && (career !in Keys(specific) ==> r == base)
      && skills <= Words(KeywordsBySection(career, skills, specific), SkillsSection)
  {
    GetNone(specific, career);
    var r := Words(KeywordsBySection(career, skills, specific), s);
    var base := Words(BaseKeywords(skills), s);
    if career !in Keys(specific) {
      assert r == base + [];
    }
  }

  // ---------------------------------------------------------------------------------------
  // The resume builder's input formatted
  // ---------------------------------------------------------------------------------------

  /** `text.split('\n') if text else []` for an optional achievements text. */
  function Achievements(text: Option<string>): seq<string>
  {
    if text.Some? && |text.value| > 0 then SplitOn(text.value, '\n') else []
  }

  /** The achievement lines join back to the text they came from, and an empty text gives none. */
  lemma AchievementsRoundTrip(text: Option<string>)
    ensures Join(Achievements(text), "\n") == if text.Some? then text.value else ""
    ensures Achievements(text) == [] <==> text.None? || text.value == ""
  {
    if text.Some? && |text.value| > 0 {
      SplitJoinRoundTrip(text.value, '\n');
    }
  }

  datatype PersonalInput = PersonalInput(fullName: Option<string>, email: Option<string>, phone: Option<string>,
                                         linkedin: Option<string>, github: Option<string>, location: Option<string>,
                                         portfolio: Option<string>)

  datatype Personal = Personal(name: string, email: string, phone: string, linkedin: string, github: string,
                               location: string, portfolio: string)

  function FormatPersonalInfo(p: PersonalInput): Personal
  {
    Personal(OrElse(p.fullName, "Your Name"), OrElse(p.email, "your.email@example.com"),
             OrElse(p.phone, "+91 98765 43210"), OrElse(p.linkedin, ""), OrElse(p.github, ""),
             OrElse(p.location, "City, State"), OrElse(p.portfolio, ""))
  }

  datatype ExperienceInput = ExperienceInput(jobTitle: Option<string>, company: Option<string>, location: Option<string>,
                                             startDate: Option<string>, endDate: Option<string>, current: Option<bool>,
                                             achievements: Option<string>)

  datatype Experience = Experience(title: string, company: string, location: string, startDate: string,
                                   endDate: string, current: bool, achievements: seq<string>)

  function FormatOneExperience(e: ExperienceInput): Experience
  {
    Experience(OrElse(e.jobTitle, "Job Title"), OrElse(e.company, "Company Name"), OrElse(e.location, "Location"),
               OrElse(e.startDate, "Start Date"), OrElse(e.endDate, "End Date"),
               if e.current.Some? then e.current.value else false, Achievements(e.achievements))
  }

  /** `_format_experience`: one formatted entry per input entry, in order. */
  method FormatExperience(xs: seq<ExperienceInput>) returns (r: seq<Experience>)
    ensures |r| == |xs|
    ensures forall i :: 0 <= i < |xs| ==> r[i] == FormatOneExperience(xs[i])
  {
    r := [];
    for k := 0 to |xs|
      invariant |r| == k
      invariant forall i :: 0 <= i < k ==> r[i] == FormatOneExperience(xs[i])
    {
      r := r + [FormatOneExperience(xs[k])];
    }
  }

  datatype EducationInput = EducationInput(degree: Option<string>, major: Option<string>, university: Option<string>,
                                           graduationYear: Option<string>, gpa: Option<string>,
                                           achievements: Option<string>)

  datatype Education = Education(degree: string, major: string, university: string, graduationYear: string,
                                 gpa: string, achievements: seq<string>)

  function FormatOneEducation(e: EducationInput): Education
  {
    Education(OrElse(e.degree, "Degree"), OrElse(e.major, "Major"), OrElse(e.university, "University"),
              OrElse(e.graduationYear, "Year"), OrElse(e.gpa, ""), Achievements(e.achievements))
  }

  /** `_format_education`: one formatted entry per input entry, in order. */
  method FormatEducation(xs: seq<EducationInput>) returns (r: seq<Education>)
    ensures |r| == |xs|
    ensures forall i :: 0 <= i < |xs| ==> r[i] == FormatOneEducation(xs[i])
  {
    r := [];
    for k := 0 to |xs|
      invariant |r| == k
      invariant forall i :: 0 <= i < k ==> r[i] == FormatOneEducation(xs[i])
    {
      r := r + [FormatOneEducation(xs[k])];
    }
  }

  datatype ProjectInput = ProjectInput(projectName: Option<string>, description: Option<string>,
                                       technologies: Option<seq<string>>, githubUrl: Option<string>,
                                       liveUrl: Option<string>, achievements: Option<string>)

  datatype Project = Project(name: string, description: string, technologies: seq<string>, githubUrl: string,
                             liveUrl: string, achievements: seq<string>)

  function FormatOneProject(p: ProjectInput): Project
  {
    Project(OrElse(p.projectName, "Project Name"), OrElse(p.description, "Project description"),
            if p.technologies.Some? then p.technologies.value else [], OrElse(p.githubUrl, ""),
            OrElse(p.liveUrl, ""), Achievements(p.achievements))
  }

  /** `_format_projects`: one formatted entry per input entry, in order. */
  method FormatProjects(xs: seq<ProjectInput>) returns (r: seq<Project>)
    ensures |r| == |xs|
    ensures forall i :: 0 <= i < |xs| ==> r[i] == FormatOneProject(xs[i])
  {
    r := [];
    for k := 0 to |xs|
      invariant |r| == k
      invariant forall i :: 0 <= i < k ==> r[i] == FormatOneProject(xs[i])
    {
      r := r + [FormatOneProject(xs[k])];
    }
  }

  datatype Skills = Skills(technical: seq<string>, soft: seq<string>, tools: seq<string>)

  /** `_format_skills`: the three lists, empty when absent. */
  function FormatSkills(technical: Option<seq<string>>, soft: Option<seq<string>>, tools: Option<seq<string>>): Skills
  {
    Skills(if technical.Some? then technical.value else [], if soft.Some? then soft.value else [],
           if tools.Some? then tools.value else [])
  }

  // ---------------------------------------------------------------------------------------
  // The plain-text resume
  // ---------------------------------------------------------------------------------------

  /** `"• " + line.strip() + "\n"`. */
  function Bullet(line: string): string
  {
    "• " + Strip(line) + "\n"
  }

  /** The bullet of each line that is not blank. */
  function Bullets(lines: seq<string>): string
    decreases |lines|
  {
    if |lines| == 0 then ""
    else
      var last := lines[|lines| - 1];
      Bullets(lines[..|lines| - 1]) + (if |Strip(last)| > 0 then Bullet(last) else "")
  }

  function NotBlank(): string -> bool
  {
    (s: string) => |Strip(s)| > 0
  }

  /** A bullet for every line, with no test. */
  function BulletList(lines: seq<string>): string
    decreases |lines|
  {
    if |lines| == 0 then "" else BulletList(lines[..|lines| - 1]) + Bullet(lines[|lines| - 1])
  }

  /** The bullets are those of the non-blank lines: blank lines are skipped. */
  lemma {:induction false} BulletsSkipBlankLines(lines: seq<string>)
    ensures Bullets(lines) == BulletList(Filter(lines, NotBlank()))
    decreases |lines|
  {
    if |lines| > 0 {
      var init, last := lines[..|lines| - 1], lines[|lines| - 1];
      BulletsSkipBlankLines(init);
      var f := Filter(init, NotBlank());
      assert Filter(lines, NotBlank()) == f + (if NotBlank()(last) then [last] else []);
      if NotBlank()(last) {
        var g := f + [last];
        assert g[..|g| - 1] == f;
        assert BulletList(g) == BulletList(f) + Bullet(last);
      } else {
        assert f + [] == f;
        assert Bullets(lines) == Bullets(init) + "";
      }
    }
  }

  /** The header, the summary and the experience heading. */
  function Header(p: Personal, summary: string): string
  {
    "\n" + Upper(p.name) + "\n" + p.email + " | " + p.phone + " | " + p.location + "\n"
    + p.linkedin + " | " + p.github + " | " + p.portfolio + "\n\nPROFESSIONAL SUMMARY\n" + summary
    + "\n\nEXPERIENCE\n"
  }

  function EndDate(e: Experience): string
  {
    if e.current then "Present" else e.endDate
  }

  function ExperienceLine(e: Experience): string
  {
    "\n" + e.title + " | " + e.company + " | " + e.location + " | " + e.startDate + " - " + EndDate(e) + "\n"
  }

  function ExperienceBlock(e: Experience): string
  {
    ExperienceLine(e) + Bullets(e.achievements)
  }

  function ExperienceText(xs: seq<Experience>): string
    decreases |xs|
  {
    if |xs| == 0 then "" else ExperienceText(xs[..|xs| - 1]) + ExperienceBlock(xs[|xs| - 1])
  }

  function EducationLine(e: Education): string
  {
    e.degree + " in " + e.major + " | " + e.university + " | " + e.graduationYear
    + (if |e.gpa| > 0 then " | GPA: " + e.gpa else "") + "\n"
  }

  function EducationBlock(e: Education): string
  {
    EducationLine(e) + Bullets(e.achievements)
  }

  function EducationText(xs: seq<Education>): string
    decreases |xs|
  {
    if |xs| == 0 then "" else EducationText(xs[..|xs| - 1]) + EducationBlock(xs[|xs| - 1])
  }

  function SkillLine(heading: string, xs: seq<string>): string
  {
    if |xs| > 0 then heading + ": " + Join(xs, ", ") + "\n" else ""
  }

  function SkillsText(s: Skills): string
  {
    "\nTECHNICAL SKILLS\n" + SkillLine("Programming Languages", s.technical)
    + SkillLine("Tools & Technologies", s.tools) + SkillLine("Soft Skills", s.soft)
  }

  function ProjectLines(p: Project): string
  {
    "\n" + p.name + "\n" + p.description + "\nTechnologies: " + Join(p.technologies, ", ") + "\n"
    + (if |p.githubUrl| > 0 then "GitHub: " + p.githubUrl + "\n" else "")
    + (if |p.liveUrl| > 0 then "Live Demo: " + p.liveUrl + "\n" else "")
  }

  function ProjectBlock(p: Project): string
  {
    ProjectLines(p) + Bullets(p.achievements)
  }

  function ProjectsText(xs: seq<Project>): string
    decreases |xs|
  {
    if |xs| == 0 then "" else ProjectsText(xs[..|xs| - 1]) + ProjectBlock(xs[|xs| - 1])
  }

  /** The sections up to the skills: header, summary, experience and education. */
  function BeforeSkills(p: Personal, summary: string, exps: seq<Experience>, edus: seq<Education>): string
  {
    Header(p, summary) + ExperienceText(exps) + "\nEDUCATION\n" + EducationText(edus)
  }

  /** The projects section, only when there are projects. */
  function ProjectsSection(projects: seq<Project>): string
  {
    if |projects| > 0 then "\nPROJECTS\n" + ProjectsText(projects) else ""
  }

  /** The text before the final `strip()`. */
  function ResumeText(p: Personal, summary: string, exps: seq<Experience>, edus: seq<Education>, skills: Skills,
                      projects: seq<Project>): string
  {
    BeforeSkills(p, summary, exps, edus) + SkillsText(skills) + ProjectsSection(projects)
  }

  /** Appends the bullets of the non-blank lines. */
  method AppendBullets(text: string, lines: seq<string>) returns (text': string)
    ensures text' == text + Bullets(lines)
  {
    text' := text;
    assert lines[..0] == [] && text + "" == text;
    for k := 0 to |lines|
      invariant text' == text + Bullets(lines[..k])
    {
      assert lines[..k + 1][..k] == lines[..k];
      var line := Strip(lines[k]);
      if |line| > 0 {
        AppendAssoc(text, Bullets(lines[..k]), Bullet(lines[k]));
        text' := text' + Bullet(lines[k]);
      } else {
        assert Bullets(lines[..k + 1]) == Bullets(lines[..k]) + "";
      }
    }
    assert lines[..|lines|] == lines;
  }

  method AppendExperienceEntry(text: string, e: Experience) returns (text': string)
    ensures text' == text + ExperienceBlock(e)
  {
    text' := text + ExperienceLine(e);
    text' := AppendBullets(text', e.achievements);
    AppendAssoc(text, ExperienceLine(e), Bullets(e.achievements));
  }

  method AppendExperience(text: string, xs: seq<Experience>) returns (text': string)
    ensures text' == text + ExperienceText(xs)
  {
    text' := text;
    assert xs[..0] == [] && text + "" == text;
    for k := 0 to |xs|
      invariant text' == text + ExperienceText(xs[..k])
    {
      assert xs[..k + 1][..k] == xs[..k];
      AppendAssoc(text, ExperienceText(xs[..k]), ExperienceBlock(xs[k]));
      text' := AppendExperienceEntry(text', xs[k]);
    }
    assert xs[..|xs|] == xs;
  }

  method AppendEducationEntry(text: string, e: Education) returns (text': string)
    ensures text' == text + EducationBlock(e)
  {
    text' := text + EducationLine(e);
    text' := AppendBullets(text', e.achievements);
    AppendAssoc(text, EducationLine(e), Bullets(e.achievements));
  }

  method AppendEducation(text: string, xs: seq<Education>) returns (text': string)
    ensures text' == text + EducationText(xs)
  {
    text' := text;
    assert xs[..0] == [] && text + "" == text;
    for k := 0 to |xs|
      invariant text' == text + EducationText(xs[..k])
    {
      assert xs[..k + 1][..k] == xs[..k];
      AppendAssoc(text, EducationText(xs[..k]), EducationBlock(xs[k]));
      text' := AppendEducationEntry(text', xs[k]);
    }
    assert xs[..|xs|] == xs;
  }

  method AppendProjectEntry(text: string, e: Project) returns (text': string)
    ensures text' == text + ProjectBlock(e)
  {
    text' := text + ProjectLines(e);
    text' := AppendBullets(text', e.achievements);
    AppendAssoc(text, ProjectLines(e), Bullets(e.achievements));
  }

  method AppendProjects(text: string, xs: seq<Project>) returns (text': string)
    ensures text' == text + ProjectsText(xs)
  {
    text' := text;
    assert xs[..0] == [] && text + "" == text;
    for k := 0 to |xs|
      invariant text' == text + ProjectsText(xs[..k])
    {
      assert xs[..k + 1][..k] == xs[..k];
      AppendAssoc(text, ProjectsText(xs[..k]), ProjectBlock(xs[k]));
      text' := AppendProjectEntry(text', xs[k]);
    }
    assert xs[..|xs|] == xs;
  }

  /** Appends one line of the skills section when its list is not empty. */
  method AppendSkillLine(text: string, heading: string, xs: seq<string>) returns (text': string)
    ensures text' == text + SkillLine(heading, xs)
  {
    text' := text;
    if |xs| > 0 {
      text' := text' + (heading + ": " + Join(xs, ", ") + "\n");
    } else {
      assert text + "" == text;
    }
  }

  method AppendSkills(text: string, s: Skills) returns (text': string)
    ensures text' == text + SkillsText(s)
  {
    var h := "\nTECHNICAL SKILLS\n";
    var l1, l2 := SkillLine("Programming Languages", s.technical), SkillLine("Tools & Technologies", s.tools);
    var l3 := SkillLine("Soft Skills", s.soft);
    text' := text + h;
    text' := AppendSkillLine(text', "Programming Languages", s.technical);
    AppendAssoc(text, h, l1);
    text' := AppendSkillLine(text', "Tools & Technologies", s.tools);
    AppendAssoc(text, h + l1, l2);
    text' := AppendSkillLine(text', "Soft Skills", s.soft);
    AppendAssoc(text, h + l1 + l2, l3);
  }

  method AppendProjectsSection(text: string, projects: seq<Project>) returns (text': string)
    ensures text' == text + ProjectsSection(projects)
  {
    if |projects| > 0 {
      text' := text + "\nPROJECTS\n";
      text' := AppendProjects(text', projects);
      AppendAssoc(text, "\nPROJECTS\n", ProjectsText(projects));
    } else {
      text' := text;
      assert text + "" == text;
    }
  }

  /** `_create_formatted_resume`: the sections appended one after another, then stripped. */
  method CreateFormattedResume(p: Personal, summary: string, exps: seq<Experience>, edus: seq<Education>,
                               skills: Skills, projects: seq<Project>) returns (r: string)
    ensures r == Strip(ResumeText(p, summary, exps, edus, skills, projects))
  {
    var text := Header(p, summary);
    text := AppendExperience(text, exps);
    text := text + "\nEDUCATION\n";
    text := AppendEducation(text, edus);
    assert text == BeforeSkills(p, summary, exps, edus);
    text := AppendSkills(text, skills);
    text := AppendProjectsSection(text, projects);
    r := Strip(text);
  }

  /** The stripped resume is never empty: at least the skills heading survives. */
  lemma FormattedResumeNotEmpty(p: Personal, summary: string, exps: seq<Experience>, edus: seq<Education>,
                                skills: Skills, projects: seq<Project>)
    ensures var r := Strip(ResumeText(p, summary, exps, edus, skills, projects));
      |r| > 0 && !IsSpace(r[0]) && !IsSpace(r[|r| - 1])
  {
    var a := BeforeSkills(p, summary, exps, edus);
    var b := SkillsText(skills);
    var t := ResumeText(p, summary, exps, edus, skills, projects);
    AppendAssoc(a, b, ProjectsSection(projects));
    assert b[1] == 'T';
    assert t[|a| + 1] == 'T';
    StripKeeps(t, |a| + 1);
  }

  /**
   * Without projects the resume ends with the skills section; with projects it contains the
   * PROJECTS heading.
   */
  lemma FormattedResumeProjects(p: Personal, summary: string, exps: seq<Experience>, edus: seq<Education>,
                                skills: Skills, projects: seq<Project>)
    ensures var t := ResumeText(p, summary, exps, edus, skills, projects);
      (|projects| == 0 ==> t == BeforeSkills(p, summary, exps, edus) + SkillsText(skills))
      && (|projects| > 0 ==> Contains(t, "\nPROJECTS\n"))
  {
    var front := BeforeSkills(p, summary, exps, edus) + SkillsText(skills);
    if |projects| > 0 {
      var tail := "\nPROJECTS\n" + ProjectsText(projects);
      assert OccursAt(tail, "\nPROJECTS\n", 0);
      ContainsConcat(front, tail, "\nPROJECTS\n");
    } else {
      assert front + "" == front;
    }
  }

  /** The experience line of a current position ends with "Present". */
  lemma CurrentPositionEndsPresent(e: Experience)
    requires e.current
    ensures Contains(ExperienceLine(e), " - Present\n")
  {
    var front := "\n" + e.title + " | " + e.company + " | " + e.location + " | " + e.startDate;
    assert ExperienceLine(e) == front + " - Present\n";
    ContainsSelf(" - Present\n");
    ContainsConcat(front, " - Present\n", " - Present\n");
  }

  /** Without any listed skill the skills section is the heading alone. */
  lemma NoSkillLines(s: Skills)
    ensures SkillsText(s) == "\nTECHNICAL SKILLS\n" <==> |s.technical| == 0 && |s.tools| == 0 && |s.soft| == 0
  {
    if |s.technical| > 0 || |s.tools| > 0 || |s.soft| > 0 {
      assert |SkillsText(s)| > |"\nTECHNICAL SKILLS\n"|;
    }
  }
}
