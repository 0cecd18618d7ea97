/**
 * The learning planner: the skill gaps of the top careers ranked by how many of them miss
 * each skill, the course, certification and project recommendations for the leading gaps,
 * the week-by-week timeline, the summary metrics and the learning goals.
 */
module LearningPlanner {
  import opened Common
  import opened Text
  import opened Ranking

  datatype Level = Beginner | Intermediate | Advanced

  /** `_estimate_skill_difficulty`: a fixed table, Intermediate for other skills. */
  const DifficultyTable: Dict<Level> := [
    ("Python Programming", Beginner), ("Machine Learning", Advanced), ("Data Analysis", Beginner),
    ("Communication", Beginner), ("Project Management", Intermediate), ("Leadership", Intermediate),
    ("Critical Thinking", Intermediate), ("Problem Solving", Intermediate)
  ]

  function SkillDifficulty(skill: string): Level
  {
    GetOr<Level>(DifficultyTable, skill, Intermediate)
  }

  /** `_estimate_learning_time`: a fixed table, "2-3 months" for other skills. */
  const LearningTimeTable: Dict<string> := [
    ("Python Programming", "2-3 months"), ("Machine Learning", "4-6 months"), ("Data Analysis", "1-2 months"),
    ("Communication", "1-2 months"), ("Project Management", "2-3 months"), ("Leadership", "3-6 months"),
    ("Critical Thinking", "2-4 months"), ("Problem Solving", "2-3 months")
  ]

  function LearningTime(skill: string): string
  {
    GetOr<string>(LearningTimeTable, skill, "2-3 months")
  }

  /** A top career as the recommender reports it. */
  datatype TopCareer = TopCareer(title: string, missingSkills: seq<string>)

  datatype SkillGap = SkillGap(skill: string, priority: nat, difficulty: Level, estimatedTime: string,
                               careersNeeding: seq<string>)

  // ---------------------------------------------------------------------------------------
  // Skill gaps
  // ---------------------------------------------------------------------------------------

  /** The missing skills of each of the first three careers, without the user's own skills. */
  function GapLists(top: seq<TopCareer>, current: seq<string>): (r: seq<seq<string>>)
    ensures |r| == Min(3, |top|)
  {
    seq(Min(3, |top|), i requires 0 <= i < Min(3, |top|) => Filter(top[i].missingSkills, NotIn(current)))
  }

  /** Every counted occurrence of a gap skill, in scanning order. */
  function Candidates(top: seq<TopCareer>, current: seq<string>): seq<string>
  {
    Flatten(GapLists(top, current))
  }

  function Misses(skill: string): TopCareer -> bool
  {
    (c: TopCareer) => skill in c.missingSkills
  }

  function Titles(cs: seq<TopCareer>): (r: seq<string>)
    ensures |r| == |cs|
  {
    seq(|cs|, i requires 0 <= i < |cs| => cs[i].title)
  }

  /** `careers_needing`: the titles of all top careers (not only three) that miss the skill. */
  function CareersNeeding(top: seq<TopCareer>, skill: string): seq<string>
  {
    Titles(Filter(top, Misses(skill)))
  }

  function GapOf(top: seq<TopCareer>, e: (string, nat)): SkillGap
  {
    SkillGap(e.0, e.1, SkillDifficulty(e.0), LearningTime(e.0), CareersNeeding(top, e.0))
  }

  function GapsOf(top: seq<TopCareer>, ranked: seq<(string, nat)>): (r: seq<SkillGap>)
    ensures |r| == |ranked|
  {
    seq(|ranked|, i requires 0 <= i < |ranked| => GapOf(top, ranked[i]))
  }

  /** `_identify_skill_gaps`: the counted skills by descending count, ties in first-seen order, at most 8. */
  function SkillGaps(top: seq<TopCareer>, current: seq<string>): seq<SkillGap>
  {
    Take(GapsOf(top, SortDesc(Tally(Candidates(top, current)), ByCount<string>())), 8)
  }

  /** One career's inner loop: each missing skill the user lacks is counted once more. */
  method CountMissing(counts: seq<(string, nat)>, ghost done: seq<string>, missing: seq<string>, current: seq<string>)
    returns (counts': seq<(string, nat)>)
    requires counts == Tally(done)
    ensures counts' == Tally(done + Filter(missing, NotIn(current)))
  {
    counts' := counts;
    assert missing[..0] == [] && done + [] == done;
    var k := 0;
    while k < |missing|
      invariant 0 <= k <= |missing|
      invariant counts' == Tally(done + Filter(missing[..k], NotIn(current)))
    {
      var skill := missing[k];
      ghost var before := Filter(missing[..k], NotIn(current));
      assert missing[..k + 1] == missing[..k] + [skill];
      FilterSnoc(missing[..k], skill, NotIn(current));
      if skill !in current {
        AppendAssoc(done, before, [skill]);
        counts' := CountOne(counts', done + before, skill);
      } else {
        assert before + [] == before;
      }
      k := k + 1;
    }
    assert missing[..|missing|] == missing;
  }

  /** The counting loop over the first three careers. */
  method CountCandidates(top: seq<TopCareer>, current: seq<string>) returns (counts: seq<(string, nat)>)
    ensures counts == Tally(Candidates(top, current))
  {
    var lists := GapLists(top, current);
    counts := [];
    var c := 0;
    while c < Min(3, |top|)
      invariant 0 <= c <= Min(3, |top|)
      invariant counts == Tally(Flatten(lists[..c]))
    {
      counts := CountMissing(counts, Flatten(lists[..c]), top[c].missingSkills, current);
      assert lists[c] == Filter(top[c].missingSkills, NotIn(current));
      assert lists[..c + 1][..c] == lists[..c];
      c := c + 1;
    }
    assert lists[..Min(3, |top|)] == lists;
  }

  /** `_identify_skill_gaps`: the counts, sorted, and one gap per counted skill, at most eight. */
  method IdentifySkillGaps(top: seq<TopCareer>, current: seq<string>) returns (gaps: seq<SkillGap>)
    ensures gaps == SkillGaps(top, current)
  {
    var counts := CountCandidates(top, current);
    var ranked := SortDesc(counts, ByCount<string>());
    var all: seq<SkillGap> := [];
    var i := 0;
    while i < |ranked|
      invariant 0 <= i <= |ranked|
      invariant all == GapsOf(top, ranked)[..i]
    {
      all := all + [SkillGap(ranked[i].0, ranked[i].1, SkillDifficulty(ranked[i].0), LearningTime(ranked[i].0),
                             CareersNeeding(top, ranked[i].0))];
      i := i + 1;
    }
    assert GapsOf(top, ranked)[..|ranked|] == GapsOf(top, ranked);
    gaps := Take(all, 8);
  }

  function GapSkills(gaps: seq<SkillGap>): (r: seq<string>)
    ensures |r| == |gaps|
  {
    seq(|gaps|, i requires 0 <= i < |gaps| => gaps[i].skill)
  }

  /** A skill occurs in the flattened lists exactly when one of the lists holds it. */
  lemma {:induction false} FlattenMembers(lists: seq<seq<string>>, x: string)
    ensures x in Flatten(lists) <==> exists i :: 0 <= i < |lists| && x in lists[i]
    decreases |lists|
  {
    if |lists| > 0 {
      var init := lists[..|lists| - 1];
      FlattenMembers(init, x);
      assert forall i :: 0 <= i < |init| ==> init[i] == lists[i];
    }
  }

  /** A candidate is a missing skill of one of the first three careers that the user lacks. */
  lemma CandidatesSpec(top: seq<TopCareer>, current: seq<string>, x: string)
    ensures x in Candidates(top, current)
            <==> x !in current && exists i :: 0 <= i < Min(3, |top|) && x in top[i].missingSkills
  {
    var lists := GapLists(top, current);
    FlattenMembers(lists, x);
    forall i | 0 <= i < |lists| ensures x in lists[i] <==> x in top[i].missingSkills && x !in current {
      FilterMembers(top[i].missingSkills, NotIn(current));
    }
  }

  /** The gap skills are the most common candidates. */
  lemma GapSkillsMostCommon(top: seq<TopCareer>, current: seq<string>)
    ensures GapSkills(SkillGaps(top, current)) == MostCommon(Candidates(top, current), 8)
  {
    var s := SortDesc(Tally(Candidates(top, current)), ByCount<string>());
    var g := SkillGaps(top, current);
    var m := MostCommon(Candidates(top, current), 8);
    assert |g| == |m|;
    forall i | 0 <= i < |g| ensures GapSkills(g)[i] == m[i] {
      assert g[i] == GapsOf(top, s)[i];
    }
  }

  /** Each gap pairs its skill with the skill's number of occurrences among the candidates. */
  lemma SkillGapsEntries(top: seq<TopCareer>, current: seq<string>)
    ensures var gaps := SkillGaps(top, current);
      var cands := Candidates(top, current);
      forall i :: 0 <= i < |gaps| ==>
        gaps[i].skill in cands && gaps[i].priority == Count(cands, gaps[i].skill)
        && gaps[i].careersNeeding == CareersNeeding(top, gaps[i].skill)
  {
    var cands := Candidates(top, current);
    var s := SortDesc(Tally(cands), ByCount<string>());
    var gaps := SkillGaps(top, current);
    SortedTallyEntries(cands);
    forall i | 0 <= i < |gaps|
      ensures gaps[i].skill in cands && gaps[i].priority == Count(cands, gaps[i].skill)
    {
      assert gaps[i] == GapOf(top, s[i]);
      assert s[i] in s;
    }
  }

  /**
   * At most eight gaps, each listed once, each a counted skill with its count as priority, in
   * descending priority; a candidate left out has no higher priority than any gap kept.
   */
  lemma SkillGapsSpec(top: seq<TopCareer>, current: seq<string>, x: string)
    ensures var gaps := SkillGaps(top, current);
      var cands := Candidates(top, current);
      |gaps| <= 8
      && Distinct(GapSkills(gaps))
      && (forall i :: 0 <= i < |gaps| ==> gaps[i].skill in cands && gaps[i].priority == Count(cands, gaps[i].skill))
      && (forall i, j :: 0 <= i < j < |gaps| ==> gaps[i].priority >= gaps[j].priority)
      && (x in cands && x !in GapSkills(gaps) ==>
            |gaps| == 8 && forall i :: 0 <= i < 8 ==> gaps[i].priority >= Count(cands, x))
  {
    var cands := Candidates(top, current);
    var gaps := SkillGaps(top, current);
    var m := MostCommon(cands, 8);
    GapSkillsMostCommon(top, current);
    SkillGapsEntries(top, current);
    MostCommonShape(cands, 8);
    MostCommonOrdered(cands, 8);
    assert forall i :: 0 <= i < |gaps| ==> m[i] == gaps[i].skill;
    if x in cands && x !in GapSkills(gaps) {
      MostCommonDominates(cands, 8, x);
      MostCommonFull(cands, 8, x);
    }
  }

  /** `careers_needing` lists exactly the titles of the top careers that miss the skill. */
  lemma CareersNeedingSpec(top: seq<TopCareer>, skill: string, t: string)
    ensures t in CareersNeeding(top, skill) <==> exists c :: c in top && c.title == t && skill in c.missingSkills
  {
    var f := Filter(top, Misses(skill));
    FilterMembers(top, Misses(skill));
    if t in Titles(f) {
      var j :| 0 <= j < |f| && Titles(f)[j] == t;
      assert f[j] in f;
    }
    if exists c :: c in top && c.title == t && skill in c.missingSkills {
      var c :| c in top && c.title == t && skill in c.missingSkills;
      assert c in f;
      var j :| 0 <= j < |f| && f[j] == c;
      assert Titles(f)[j] == t;
    }
  }

  // ---------------------------------------------------------------------------------------
  // Courses
  // ---------------------------------------------------------------------------------------

  datatype Course = Course(title: string, platform: string, difficulty: Level, duration: Option<string>, cost: string)

  /**
   * A course recommendation. `completion` is none where `_calculate_course_completion_time`
   * raises (a "weeks" duration whose first word is not an integer).
   */
  datatype CourseRec = CourseRec(skill: string, course: Course, priority: nat, completion: Option<string>)

  /**
   * `_calculate_course_completion_time`: "N weeks" becomes "N+1-N+2 weeks", a duration
   * without "weeks" is returned as it is, and a missing duration counts as "4 weeks".
   */
  function CompletionTime(duration: Option<string>): (r: Option<string>)
    ensures duration.Some? && !Contains(duration.value, "weeks") ==> r == duration
  {
    var d := if duration.Some? then duration.value else "4 weeks";
    if !Contains(d, "weeks") then Some(d)
    else
      match FirstWord(d)
      case None => None
      case Some(w) =>
        match ParseInt(w)
        case None => None
        case Some(n) => Some(IntToString(n + 1) + "-" + IntToString(n + 2) + " weeks")
  }

  /** "N weeks" is buffered to "N+1-N+2 weeks". */
  lemma CompletionTimeOfWeeks(n: nat)
    ensures CompletionTime(Some(IntToString(n) + " weeks")) == Some(IntToString(n + 1) + "-" + IntToString(n + 2) + " weeks")
  {
    var w := IntToString(n);
    var d := w + " weeks";
    assert Contains(d, "weeks") by {
      assert d[|w| + 1..|w| + 6] == "weeks";
      assert OccursAt(d, "weeks", |w| + 1);
    }
    assert FirstWord(d) == Some(w) by {
      FirstWordOfWord(w, " weeks");
    }
    assert ParseInt(w) == Some(n) by {
      ParseIntRoundTrip(n);
    }
  }

  /** The first word of a word followed by a space and more text is that word. */
  lemma FirstWordOfWord(w: string, rest: string)
    requires |w| > 0 && !IsSpace(w[0]) && forall i :: 0 <= i < |w| ==> !IsSpace(w[i])
    requires |rest| > 0 && IsSpace(rest[0])
    ensures FirstWord(w + rest) == Some(w)
  {
    var s := w + rest;
    assert TrimStart(s) == s;
    WordPrefixOf(w, rest);
  }

  lemma {:induction false} WordPrefixOf(w: string, rest: string)
    requires forall i :: 0 <= i < |w| ==> !IsSpace(w[i])
    requires |rest| > 0 && IsSpace(rest[0])
    ensures WordPrefix(w + rest) == w
    decreases |w|
  {
    if |w| > 0 {
      assert (w + rest)[1..] == w[1..] + rest;
      WordPrefixOf(w[1..], rest);
    }
  }

  function AtLevel(level: Level): Course -> bool
  {
    (c: Course) => c.difficulty == level
  }

  /** The courses at the gap's level, or else the first two, at most two in either case. */
  function Suitable(courses: seq<Course>, level: Level): (r: seq<Course>)
  {
    var exact := Filter(courses, AtLevel(level));
    Take(if |exact| > 0 then exact else Take(courses, 2), 2)
  }

  /** At most two courses, all from the list, all at the level when one is. */
  lemma SuitableSpec(courses: seq<Course>, level: Level)
    ensures |Suitable(courses, level)| <= 2
    ensures forall c :: c in Suitable(courses, level) ==> c in courses
    ensures (exists c :: c in courses && c.difficulty == level) ==>
              forall c :: c in Suitable(courses, level) ==> c.difficulty == level
    ensures |courses| > 0 ==> |Suitable(courses, level)| > 0
  {
    var exact := Filter(courses, AtLevel(level));
    FilterMembers(courses, AtLevel(level));
    var r := Suitable(courses, level);
    forall c | c in r ensures c in courses && (|exact| > 0 ==> c.difficulty == level) {
      var i :| 0 <= i < |r| && r[i] == c;
      if |exact| > 0 {
        assert exact[i] in exact;
      } else {
        assert c == courses[i];
      }
    }
    if exists c :: c in courses && c.difficulty == level {
      var c :| c in courses && c.difficulty == level;
      assert c in exact;
    }
  }

  function CoursesFor(gap: SkillGap, catalogue: Dict<seq<Course>>): (r: seq<CourseRec>)
  {
    var cs := Suitable(GetOr<seq<Course>>(catalogue, gap.skill, []), gap.difficulty);
    seq(|cs|, i requires 0 <= i < |cs| => CourseRec(gap.skill, cs[i], gap.priority, CompletionTime(cs[i].duration)))
  }

  function CourseRecs(gaps: seq<SkillGap>, catalogue: Dict<seq<Course>>): seq<CourseRec>
    decreases |gaps|
  {
    if |gaps| == 0 then [] else CourseRecs(gaps[..|gaps| - 1], catalogue) + CoursesFor(gaps[|gaps| - 1], catalogue)
  }

  function ByCoursePriority(): CourseRec -> real
  {
    (r: CourseRec) => r.priority as real
  }

  /** `_recommend_courses`: up to two courses for each of the first five gaps, by descending priority. */
  function RecommendCourses(gaps: seq<SkillGap>, catalogue: Dict<seq<Course>>): seq<CourseRec>
  {
    SortDesc(CourseRecs(Take(gaps, 5), catalogue), ByCoursePriority())
  }

  /** The recommendations of one gap, built course by course. */
  method SuitableCourses(gap: SkillGap, catalogue: Dict<seq<Course>>) returns (r: seq<CourseRec>)
    ensures r == CoursesFor(gap, catalogue)
  {
    var suitable := Suitable(GetOr<seq<Course>>(catalogue, gap.skill, []), gap.difficulty);
    r := [];
    var k := 0;
    while k < |suitable|
      invariant 0 <= k <= |suitable|
      invariant r == CoursesFor(gap, catalogue)[..k]
    {
      var course := suitable[k];
      r := r + [CourseRec(gap.skill, course, gap.priority, CompletionTime(course.duration))];
      k := k + 1;
    }
  }

  method CollectCourses(gaps: seq<SkillGap>, catalogue: Dict<seq<Course>>) returns (r: seq<CourseRec>)
    ensures r == RecommendCourses(gaps, catalogue)
  {
    var first := Take(gaps, 5);
    var recs: seq<CourseRec> := [];
    var g := 0;
    while g < |first|
      invariant 0 <= g <= |first|
      invariant recs == CourseRecs(first[..g], catalogue)
    {
      var more := SuitableCourses(first[g], catalogue);
      recs := recs + more;
      assert first[..g + 1][..g] == first[..g];
      g := g + 1;
    }
    assert first[..|first|] == first;
    r := SortDesc(recs, ByCoursePriority());
  }

  function ForSkill(skill: string): CourseRec -> bool
  {
    (r: CourseRec) => r.skill == skill
  }

  /** One gap's courses are at most two, all for its skill. */
  lemma CoursesForSkill(gap: SkillGap, catalogue: Dict<seq<Course>>, skill: string)
    ensures |CoursesFor(gap, catalogue)| <= 2
    ensures Filter(CoursesFor(gap, catalogue), ForSkill(skill)) == if gap.skill == skill then CoursesFor(gap, catalogue) else []
  {
    SuitableSpec(GetOr<seq<Course>>(catalogue, gap.skill, []), gap.difficulty);
    if gap.skill == skill {
      FilterAll(CoursesFor(gap, catalogue), ForSkill(skill));
    } else {
      FilterNone(CoursesFor(gap, catalogue), ForSkill(skill));
    }
  }

  /** A skill no gap names gets no course. */
  lemma {:induction false} CourseRecsAbsent(gaps: seq<SkillGap>, catalogue: Dict<seq<Course>>, skill: string)
    requires forall i :: 0 <= i < |gaps| ==> gaps[i].skill != skill
    ensures Filter(CourseRecs(gaps, catalogue), ForSkill(skill)) == []
    decreases |gaps|
  {
    if |gaps| > 0 {
      var init, last := gaps[..|gaps| - 1], gaps[|gaps| - 1];
      CourseRecsAbsent(init, catalogue, skill);
      FilterConcat(CourseRecs(init, catalogue), CoursesFor(last, catalogue), ForSkill(skill));
      CoursesForSkill(last, catalogue, skill);
    }
  }

  /** With distinct gap skills each skill gets at most two courses. */
  lemma {:induction false} CourseRecsPerSkill(gaps: seq<SkillGap>, catalogue: Dict<seq<Course>>, skill: string)
    requires Distinct(GapSkills(gaps))
    ensures |Filter(CourseRecs(gaps, catalogue), ForSkill(skill))| <= 2
    decreases |gaps|
  {
    if |gaps| > 0 {
      var init, last := gaps[..|gaps| - 1], gaps[|gaps| - 1];
      assert forall i :: 0 <= i < |init| ==> GapSkills(init)[i] == GapSkills(gaps)[i];
      FilterConcat(CourseRecs(init, catalogue), CoursesFor(last, catalogue), ForSkill(skill));
      CoursesForSkill(last, catalogue, skill);
      if last.skill == skill {
        forall i | 0 <= i < |init| ensures init[i].skill != skill {
          assert GapSkills(gaps)[i] != GapSkills(gaps)[|gaps| - 1];
        }
        CourseRecsAbsent(init, catalogue, skill);
      } else {
        CourseRecsPerSkill(init, catalogue, skill);
      }
    }
  }

  /** Course recommendations are ordered by priority, at most ten, and at most two per gap skill. */
  lemma RecommendCoursesSpec(gaps: seq<SkillGap>, catalogue: Dict<seq<Course>>, skill: string)
    requires Distinct(GapSkills(gaps))
    ensures SortedDesc(RecommendCourses(gaps, catalogue), ByCoursePriority())
    ensures |Filter(RecommendCourses(gaps, catalogue), ForSkill(skill))| <= 2
    ensures |RecommendCourses(gaps, catalogue)| <= 10
  {
    var first := Take(gaps, 5);
    assert forall i :: 0 <= i < |first| ==> GapSkills(first)[i] == GapSkills(gaps)[i];
    CourseRecsPerSkill(first, catalogue, skill);
    FilterLengthPermutation(RecommendCourses(gaps, catalogue), CourseRecs(first, catalogue), ForSkill(skill));
    CourseRecsLength(first, catalogue);
  }

  lemma {:induction false} CourseRecsLength(gaps: seq<SkillGap>, catalogue: Dict<seq<Course>>)
    ensures |CourseRecs(gaps, catalogue)| <= 2 * |gaps|
    decreases |gaps|
  {
    if |gaps| > 0 {
      CourseRecsLength(gaps[..|gaps| - 1], catalogue);
      CoursesForSkill(gaps[|gaps| - 1], catalogue, "");
    }
  }

  // ---------------------------------------------------------------------------------------
  // Certifications and projects
  // ---------------------------------------------------------------------------------------

  datatype Certification = Certification(name: string, issuer: string, duration: Option<string>, cost: string)

  datatype CertRec = CertRec(skill: string, certification: Certification, priority: nat, timeline: string)

  /** `_calculate_cert_timeline`, with "3-6 months" for a missing duration. */
  function CertTimeline(c: Certification): string
  {
    "Start after 2-3 months of learning: " + (if c.duration.Some? then c.duration.value else "3-6 months")
  }

  function CertsFor(gap: SkillGap, catalogue: Dict<seq<Certification>>): seq<CertRec>
  {
    var cs := GetOr<seq<Certification>>(catalogue, gap.skill, []);
    seq(|cs|, i requires 0 <= i < |cs| => CertRec(gap.skill, cs[i], gap.priority, CertTimeline(cs[i])))
  }

  function CertRecs(gaps: seq<SkillGap>, catalogue: Dict<seq<Certification>>): seq<CertRec>
    decreases |gaps|
  {
    if |gaps| == 0 then [] else CertRecs(gaps[..|gaps| - 1], catalogue) + CertsFor(gaps[|gaps| - 1], catalogue)
  }

  function ByCertPriority(): CertRec -> real
  {
    (r: CertRec) => r.priority as real
  }

  /** `_recommend_certifications`: every certification of the first three gaps, by descending priority. */
  function RecommendCertifications(gaps: seq<SkillGap>, catalogue: Dict<seq<Certification>>): seq<CertRec>
  {
    SortDesc(CertRecs(Take(gaps, 3), catalogue), ByCertPriority())
  }

  /** Every certification recommended is listed for one of the first three gap skills. */
  lemma {:induction false} CertRecsFrom(gaps: seq<SkillGap>, catalogue: Dict<seq<Certification>>, r: CertRec)
    requires r in CertRecs(gaps, catalogue)
    ensures exists i :: 0 <= i < |gaps| && r.skill == gaps[i].skill && r.priority == gaps[i].priority
                        && r.certification in GetOr<seq<Certification>>(catalogue, gaps[i].skill, [])
    decreases |gaps|
  {
    var init, last := gaps[..|gaps| - 1], gaps[|gaps| - 1];
    if r in CertRecs(init, catalogue) {
      CertRecsFrom(init, catalogue, r);
      var i :| 0 <= i < |init| && r.skill == init[i].skill && r.priority == init[i].priority
                && r.certification in GetOr<seq<Certification>>(catalogue, init[i].skill, []);
      assert init[i] == gaps[i];
    } else {
      var cs := CertsFor(last, catalogue);
      assert r in cs;
      var j :| 0 <= j < |cs| && cs[j] == r;
      assert r.certification == GetOr<seq<Certification>>(catalogue, last.skill, [])[j];
    }
  }

  lemma RecommendCertificationsSpec(gaps: seq<SkillGap>, catalogue: Dict<seq<Certification>>, r: CertRec)
    ensures SortedDesc(RecommendCertifications(gaps, catalogue), ByCertPriority())
    ensures r in RecommendCertifications(gaps, catalogue) ==>
      exists i :: 0 <= i < Min(3, |gaps|) && r.skill == gaps[i].skill && r.priority == gaps[i].priority
                  && r.certification in GetOr<seq<Certification>>(catalogue, gaps[i].skill, [])
  {
    var first := Take(gaps, 3);
    if r in RecommendCertifications(gaps, catalogue) {
      assert r in multiset(CertRecs(first, catalogue));
      CertRecsFrom(first, catalogue, r);
      var i :| 0 <= i < |first| && r.skill == first[i].skill && r.priority == first[i].priority
                && r.certification in GetOr<seq<Certification>>(catalogue, first[i].skill, []);
      assert first[i] == gaps[i];
    }
  }

  datatype Project = Project(title: string, difficulty: Level, duration: string)

  datatype ProjectRec = ProjectRec(skill: string, project: Project, priority: nat, order: nat)

  /** The recommendations of one gap, numbered on from `base`. */
  function ProjectsFor(gap: SkillGap, catalogue: Dict<seq<Project>>, base: nat): (r: seq<ProjectRec>)
    ensures |r| == |GetOr<seq<Project>>(catalogue, gap.skill, [])|
  {
    var ps := GetOr<seq<Project>>(catalogue, gap.skill, []);
    seq(|ps|, i requires 0 <= i < |ps| => ProjectRec(gap.skill, ps[i], gap.priority, base + i + 1))
  }

  function ProjectRecs(gaps: seq<SkillGap>, catalogue: Dict<seq<Project>>): seq<ProjectRec>
    decreases |gaps|
  {
    if |gaps| == 0 then []
    else
      var init := ProjectRecs(gaps[..|gaps| - 1], catalogue);
      init + ProjectsFor(gaps[|gaps| - 1], catalogue, |init|)
  }

  function ByProjectPriority(): ProjectRec -> real
  {
    (r: ProjectRec) => r.priority as real
  }

  /** `_recommend_projects`: every project of the first four gaps, numbered, then by descending priority. */
  function RecommendProjects(gaps: seq<SkillGap>, catalogue: Dict<seq<Project>>): seq<ProjectRec>
  {
    SortDesc(ProjectRecs(Take(gaps, 4), catalogue), ByProjectPriority())
  }

  /** The recommendations of one gap, numbered on from `base`, built project by project. */
  method NumberProjects(gap: SkillGap, catalogue: Dict<seq<Project>>, base: nat) returns (r: seq<ProjectRec>)
    ensures r == ProjectsFor(gap, catalogue, base)
  {
    var projects := GetOr<seq<Project>>(catalogue, gap.skill, []);
    r := [];
    var k := 0;
    while k < |projects|
      invariant 0 <= k <= |projects|
      invariant r == ProjectsFor(gap, catalogue, base)[..k]
    {
      r := r + [ProjectRec(gap.skill, projects[k], gap.priority, base + |r| + 1)];
      k := k + 1;
    }
  }

  method CollectProjects(gaps: seq<SkillGap>, catalogue: Dict<seq<Project>>) returns (r: seq<ProjectRec>)
    ensures r == RecommendProjects(gaps, catalogue)
  {
    var first := Take(gaps, 4);
    var recs: seq<ProjectRec> := [];
    var g := 0;
    while g < |first|
      invariant 0 <= g <= |first|
      invariant recs == ProjectRecs(first[..g], catalogue)
    {
      var more := NumberProjects(first[g], catalogue, |recs|);
      recs := recs + more;
      assert first[..g + 1][..g] == first[..g];
      g := g + 1;
    }
    assert first[..|first|] == first;
    r := SortDesc(recs, ByProjectPriority());
  }

  /** Before sorting the `recommended_order` values are 1..n in insertion order. */
  lemma {:induction false} ProjectOrders(gaps: seq<SkillGap>, catalogue: Dict<seq<Project>>)
    ensures forall i :: 0 <= i < |ProjectRecs(gaps, catalogue)| ==> ProjectRecs(gaps, catalogue)[i].order == i + 1
    decreases |gaps|
  {
    if |gaps| > 0 {
      ProjectOrders(gaps[..|gaps| - 1], catalogue);
    }
  }

  /**
   * The sorted projects are the numbered ones rearranged by descending priority; projects of
   * equal priority keep their insertion order, so their numbers still increase.
   */
  lemma RecommendProjectsSpec(gaps: seq<SkillGap>, catalogue: Dict<seq<Project>>, v: nat)
    ensures var r := RecommendProjects(gaps, catalogue);
      var recs := ProjectRecs(Take(gaps, 4), catalogue);
      multiset(r) == multiset(recs)
      && SortedDesc(r, ByProjectPriority())
      && Filter(r, KeyIs(ByProjectPriority(), v as real)) == Filter(recs, KeyIs(ByProjectPriority(), v as real))
      && forall i :: 0 <= i < |recs| ==> recs[i].order == i + 1
  {
    var recs := ProjectRecs(Take(gaps, 4), catalogue);
    ProjectOrders(Take(gaps, 4), catalogue);
    SortDescStable(recs, ByProjectPriority(), v as real);
  }

  // ---------------------------------------------------------------------------------------
  // The timeline
  // ---------------------------------------------------------------------------------------

  datatype Phase = Foundation | Application | AdvancedLearning | CertificationPrep | Portfolio

  function PhaseRank(p: Phase): nat
  {
    match p
    case Foundation => 0
    case Application => 1
    case AdvancedLearning => 2
    case CertificationPrep => 3
    case Portfolio => 4
  }

  /** An activity of the plan: its phase, its position within the phase, its title and skill. */
  datatype Activity = Activity(phase: Phase, index: nat, title: string, skill: string)

  /** The number of weeks an activity takes, by phase and position. */
  function Weeks(a: Activity): (w: nat)
    ensures w >= 2
  {
    match a.phase
    case Foundation => if a.index < 2 then 3 else 4
    case Application => if a.index < 2 then 2 else 3
    case AdvancedLearning => if a.index < 2 then 4 else 5
    case CertificationPrep => if a.index < 1 then 4 else 5
    case Portfolio => 8
  }

  function IsBeginnerCourse(): CourseRec -> bool
  {
    (c: CourseRec) => c.course.difficulty == Beginner
  }

  function IsAdvancedCourse(): CourseRec -> bool
  {
    (c: CourseRec) => c.course.difficulty == Intermediate || c.course.difficulty == Advanced
  }

  function IsBeginnerProject(): ProjectRec -> bool
  {
    (p: ProjectRec) => p.project.difficulty == Beginner
  }

  function CourseActivities(phase: Phase, cs: seq<CourseRec>): (r: seq<Activity>)
    ensures |r| == |cs| && AllIn(r, phase)
  {
    seq(|cs|, i requires 0 <= i < |cs| => Activity(phase, i, cs[i].course.title, cs[i].skill))
  }

  function ProjectActivities(ps: seq<ProjectRec>): (r: seq<Activity>)
    ensures |r| == |ps| && AllIn(r, Application)
  {
    seq(|ps|, i requires 0 <= i < |ps| => Activity(Application, i, ps[i].project.title, ps[i].skill))
  }

  function CertActivities(cs: seq<CertRec>): (r: seq<Activity>)
    ensures |r| == |cs| && AllIn(r, CertificationPrep)
  {
    seq(|cs|, i requires 0 <= i < |cs| => Activity(CertificationPrep, i, cs[i].certification.name, cs[i].skill))
  }

  /**
   * The activities of `_create_learning_timeline` in order: up to four beginner courses, up
   * to three beginner projects, up to three intermediate or advanced courses, up to two
   * certifications, and the portfolio.
   */
  function Activities(courses: seq<CourseRec>, certs: seq<CertRec>, projects: seq<ProjectRec>): seq<Activity>
  {
    CourseActivities(Foundation, Take(Filter(courses, IsBeginnerCourse()), 4))
    + ProjectActivities(Take(Filter(projects, IsBeginnerProject()), 3))
    + CourseActivities(AdvancedLearning, Take(Filter(courses, IsAdvancedCourse()), 3))
    + CertActivities(Take(certs, 2))
    + [PortfolioActivity]
  }

  const PortfolioActivity := Activity(Portfolio, 0, "Professional Portfolio Creation", "Portfolio Development")

  ghost predicate AllIn(acts: seq<Activity>, p: Phase)
  {
    forall i :: 0 <= i < |acts| ==> acts[i].phase == p
  }

  ghost predicate RanksAtMost(acts: seq<Activity>, r: nat)
  {
    forall i :: 0 <= i < |acts| ==> PhaseRank(acts[i].phase) <= r
  }

  ghost predicate PhasesOrdered(acts: seq<Activity>)
  {
    forall i, j :: 0 <= i < j < |acts| ==> PhaseRank(acts[i].phase) <= PhaseRank(acts[j].phase)
  }

  /** Appending a phase whose rank is at least every earlier one keeps the phases in order. */
  lemma AppendPhase(a: seq<Activity>, r: nat, b: seq<Activity>, p: Phase)
    requires PhasesOrdered(a) && RanksAtMost(a, r) && r <= PhaseRank(p) && AllIn(b, p)
    ensures PhasesOrdered(a + b) && RanksAtMost(a + b, PhaseRank(p))
  {
    var c := a + b;
    forall i, j | 0 <= i < j < |c| ensures PhaseRank(c[i].phase) <= PhaseRank(c[j].phase) {
      if j < |a| {
        assert c[i] == a[i] && c[j] == a[j];
      } else if i < |a| {
        assert c[i] == a[i] && c[j] == b[j - |a|];
      } else {
        assert c[i] == b[i - |a|] && c[j] == b[j - |a|];
      }
    }
    forall i | 0 <= i < |c| ensures PhaseRank(c[i].phase) <= PhaseRank(p) {
      if i < |a| {
        assert c[i] == a[i];
      } else {
        assert c[i] == b[i - |a|];
      }
    }
  }

  /** At most thirteen activities, phases in order, always ending with the eight-week portfolio. */
  lemma ActivitiesSpec(courses: seq<CourseRec>, certs: seq<CertRec>, projects: seq<ProjectRec>)
    ensures var acts := Activities(courses, certs, projects);
      1 <= |acts| <= 13
      && acts[|acts| - 1].phase == Portfolio && Weeks(acts[|acts| - 1]) == 8
      && (forall i, j :: 0 <= i < j < |acts| ==> PhaseRank(acts[i].phase) <= PhaseRank(acts[j].phase))
      && (forall i :: 0 <= i < |acts| - 1 ==> acts[i].phase != Portfolio)
  {
    var a1 := CourseActivities(Foundation, Take(Filter(courses, IsBeginnerCourse()), 4));
    var a2 := ProjectActivities(Take(Filter(projects, IsBeginnerProject()), 3));
    var a3 := CourseActivities(AdvancedLearning, Take(Filter(courses, IsAdvancedCourse()), 3));
    var a4 := CertActivities(Take(certs, 2));
    var last := [PortfolioActivity];
    AppendPhase([], 0, a1, Foundation);
    assert [] + a1 == a1;
    AppendPhase(a1, 0, a2, Application);
    AppendPhase(a1 + a2, 1, a3, AdvancedLearning);
    AppendPhase(a1 + a2 + a3, 2, a4, CertificationPrep);
    var front := a1 + a2 + a3 + a4;
    AppendPhase(front, 3, last, Portfolio);
    var acts := front + last;
    assert acts == Activities(courses, certs, projects);
    forall i | 0 <= i < |acts| - 1 ensures acts[i].phase != Portfolio {
      assert acts[i] == front[i];
    }
  }

  /** A timeline entry: the activity and its first and last week. */
  datatype Entry = Entry(activity: Activity, firstWeek: nat, lastWeek: nat)

  /** The `week` label of an entry, "Week a-b". */
  function WeekLabel(e: Entry): string
  {
    "Week " + NatToString(e.firstWeek) + "-" + NatToString(e.lastWeek)
  }

  /** Each entry starts the week after the previous one ends (week 1 for the first) and lasts its activity's weeks. */
  ghost predicate Contiguous(t: seq<Entry>)
    decreases |t|
  {
    |t| == 0
    || (var init, e := t[..|t| - 1], t[|t| - 1];
        Contiguous(init) && e.firstWeek == NextWeek(init) && e.lastWeek + 1 == e.firstWeek + Weeks(e.activity))
  }

  /** `current_week`: the week after the last entry. */
  function NextWeek(t: seq<Entry>): nat
  {
    if |t| == 0 then 1 else t[|t| - 1].lastWeek + 1
  }

  function ActivitiesOf(t: seq<Entry>): (r: seq<Activity>)
    ensures |r| == |t|
  {
    seq(|t|, i requires 0 <= i < |t| => t[i].activity)
  }

  /** Scheduling one more activity at the next week keeps the timeline contiguous. */
  lemma ScheduleOne(t: seq<Entry>, a: Activity)
    requires Contiguous(t)
    ensures var e := Entry(a, NextWeek(t), NextWeek(t) + Weeks(a) - 1);
      Contiguous(t + [e]) && NextWeek(t + [e]) == NextWeek(t) + Weeks(a)
      && ActivitiesOf(t + [e]) == ActivitiesOf(t) + [a]
  {
    var e := Entry(a, NextWeek(t), NextWeek(t) + Weeks(a) - 1);
    var u := t + [e];
    assert u[..|u| - 1] == t;
  }

  /** One phase loop: each activity takes the next weeks, and the week counter moves past it. */
  method SchedulePhase(t: seq<Entry>, week: nat, acts: seq<Activity>) returns (t': seq<Entry>, week': nat)
    requires Contiguous(t) && week == NextWeek(t)
    ensures Contiguous(t') && week' == NextWeek(t')
    ensures ActivitiesOf(t') == ActivitiesOf(t) + acts
  {
    t', week' := t, week;
    var i := 0;
    assert acts[..0] == [] && ActivitiesOf(t) + [] == ActivitiesOf(t);
    while i < |acts|
      invariant 0 <= i <= |acts|
      invariant Contiguous(t') && week' == NextWeek(t')
      invariant ActivitiesOf(t') == ActivitiesOf(t) + acts[..i]
    {
      var duration := Weeks(acts[i]);
      ScheduleOne(t', acts[i]);
      AppendAssoc(ActivitiesOf(t), acts[..i], [acts[i]]);
      assert acts[..i + 1] == acts[..i] + [acts[i]];
      t' := t' + [Entry(acts[i], week', week' + duration - 1)];
      week' := week' + duration;
      i := i + 1;
    }
    assert acts[..|acts|] == acts;
  }

  /**
   * `_create_learning_timeline`: the plan's activities in order, scheduled back to back from
   * week 1.
   */
  method CreateLearningTimeline(courses: seq<CourseRec>, certs: seq<CertRec>, projects: seq<ProjectRec>)
    returns (t: seq<Entry>)
    ensures ActivitiesOf(t) == Activities(courses, certs, projects)
    ensures Contiguous(t)
  {
    var a1 := CourseActivities(Foundation, Take(Filter(courses, IsBeginnerCourse()), 4));
    var a2 := ProjectActivities(Take(Filter(projects, IsBeginnerProject()), 3));
    var a3 := CourseActivities(AdvancedLearning, Take(Filter(courses, IsAdvancedCourse()), 3));
    var a4 := CertActivities(Take(certs, 2));
    var week := 1;
    t := [];
    t, week := SchedulePhase(t, week, a1);
    assert ActivitiesOf(t) == a1;
    t, week := SchedulePhase(t, week, a2);
    t, week := SchedulePhase(t, week, a3);
    t, week := SchedulePhase(t, week, a4);
    t, week := SchedulePhase(t, week, [PortfolioActivity]);
    assert ActivitiesOf(t) == a1 + a2 + a3 + a4 + [PortfolioActivity];
  }

  /** A contiguous timeline starts at week 1, and every entry starts the week after the one before ends. */
  lemma {:induction false} ContiguousEntries(t: seq<Entry>)
    requires Contiguous(t)
    ensures |t| > 0 ==> t[0].firstWeek == 1
    ensures forall i :: 0 <= i < |t| ==> t[i].lastWeek + 1 == t[i].firstWeek + Weeks(t[i].activity)
    ensures forall i :: 0 <= i < |t| - 1 ==> t[i + 1].firstWeek == t[i].lastWeek + 1
    decreases |t|
  {
    if |t| > 0 {
      var init := t[..|t| - 1];
      ContiguousEntries(init);
      assert forall i :: 0 <= i < |init| ==> init[i] == t[i];
    }
  }

  /** The weeks never overlap: a later entry starts after an earlier one ends. */
  lemma {:induction false} ContiguousOrdered(t: seq<Entry>, i: nat, j: nat)
    requires Contiguous(t) && i < j < |t|
    ensures t[i].lastWeek < t[j].firstWeek
    decreases j - i
  {
    ContiguousEntries(t);
    if j > i + 1 {
      ContiguousOrdered(t, i, j - 1);
    }
  }

  // ---------------------------------------------------------------------------------------
  // Metrics, goals and the plan
  // ---------------------------------------------------------------------------------------

  datatype LearningMetrics = LearningMetrics(totalSkills: nat, courses: nat, certifications: nat, estimatedTotalTime: string)

  /** `f"{2n}-{3n} months"`. */
  function EstimatedTotalTime(n: nat): string
  {
    NatToString(2 * n) + "-" + NatToString(3 * n) + " months"
  }

  /** The estimate starts with two months per gap, written in digits, followed by "-". */
  lemma EstimatedTotalTimeSpec(n: nat)
    ensures var s := EstimatedTotalTime(n); var lo := NatToString(2 * n);
      BeforeFirst(s, "-") == lo && ParseInt(BeforeFirst(s, "-")) == Some(2 * n)
  {
    var s := EstimatedTotalTime(n);
    var lo := NatToString(2 * n);
    assert OccursAt(s, "-", |lo|) by {
      assert s[|lo|..|lo| + 1] == "-";
    }
    forall j | 0 <= j < |lo| ensures !OccursAt(s, "-", j) {
      assert s[j..j + 1] == [lo[j]];
      assert IsDigit(lo[j]);
    }
    var k := IndexOf(s, "-");
    assert k == Some(|lo|);
    assert s[..|lo|] == lo;
    ParseNatString(2 * n);
  }

  function Metrics(gaps: seq<SkillGap>, courses: seq<CourseRec>, certs: seq<CertRec>): LearningMetrics
  {
    LearningMetrics(|gaps|, |courses|, |certs|, EstimatedTotalTime(|gaps|))
  }

  datatype Term = ShortTerm | MediumTerm | LongTerm

  datatype Goal = Goal(term: Term, goal: string, measurement: string)

  function AtDifficulty(level: Level): SkillGap -> bool
  {
    (g: SkillGap) => g.difficulty == level
  }

  function ShortGoalText(skill: string): string { "Master " + skill + " fundamentals" }

  function ShortGoalTarget(skill: string): string { "Complete 2 courses and 1 project in " + skill }

  function MediumGoalText(skill: string): string { "Develop advanced " + skill + " capabilities" }

  const MediumGoalTarget := "Complete advanced course and build portfolio project"

  function LongGoalText(title: string): string { "Prepare for " + title + " role" }

  const LongGoalTarget := "Complete all skill requirements and earn relevant certification"

  function ShortGoals(gs: seq<SkillGap>): (r: seq<Goal>)
    ensures |r| == |gs| && forall i :: 0 <= i < |r| ==> r[i].term == ShortTerm
  {
    seq(|gs|, i requires 0 <= i < |gs| =>
      Goal(ShortTerm, ShortGoalText(gs[i].skill), ShortGoalTarget(gs[i].skill)))
  }

  function MediumGoals(gs: seq<SkillGap>): (r: seq<Goal>)
    ensures |r| == |gs| && forall i :: 0 <= i < |r| ==> r[i].term == MediumTerm
  {
    seq(|gs|, i requires 0 <= i < |gs| =>
      Goal(MediumTerm, MediumGoalText(gs[i].skill), MediumGoalTarget))
  }

  /**
   * `_generate_learning_goals`: a short-term goal for each of the first three beginner gaps,
   * a medium-term goal for each of the first two intermediate gaps, and a long-term goal for
   * the best career when there is one.
   */
  function LearningGoals(gaps: seq<SkillGap>, top: seq<TopCareer>): seq<Goal>
  {
    ShortGoals(Take(Filter(gaps, AtDifficulty(Beginner)), 3))
    + MediumGoals(Take(Filter(gaps, AtDifficulty(Intermediate)), 2))
    + LongGoals(top)
  }

  /** The long-term goal for the best career, when there is one. */
  function LongGoals(top: seq<TopCareer>): (r: seq<Goal>)
    ensures |r| == (if |top| > 0 then 1 else 0)
    ensures forall i :: 0 <= i < |r| ==> r[i].term == LongTerm
  {
    if |top| > 0 then [Goal(LongTerm, LongGoalText(top[0].title), LongGoalTarget)]
    else []
  }

  function TermIs(t: Term): Goal -> bool
  {
    (g: Goal) => g.term == t
  }

  /** In a list of goals of one term, `t`'s goals are all of them or none. */
  lemma TermCount(goals: seq<Goal>, u: Term, t: Term)
    requires forall i :: 0 <= i < |goals| ==> goals[i].term == u
    ensures |Filter(goals, TermIs(t))| == if t == u then |goals| else 0
  {
    if t == u {
      FilterAll(goals, TermIs(t));
    } else {
      FilterNone(goals, TermIs(t));
    }
  }

  /** The goals of one term in the three parts of the list. */
  lemma GoalsOfTerm(s: seq<Goal>, m: seq<Goal>, l: seq<Goal>, t: Term)
    requires forall i :: 0 <= i < |s| ==> s[i].term == ShortTerm
    requires forall i :: 0 <= i < |m| ==> m[i].term == MediumTerm
    requires forall i :: 0 <= i < |l| ==> l[i].term == LongTerm
    ensures |Filter(s + m + l, TermIs(t))|
      == (if t == ShortTerm then |s| else 0) + (if t == MediumTerm then |m| else 0) + (if t == LongTerm then |l| else 0)
  {
    FilterConcat(s + m, l, TermIs(t));
    FilterConcat(s, m, TermIs(t));
    TermCount(s, ShortTerm, t);
    TermCount(m, MediumTerm, t);
    TermCount(l, LongTerm, t);
  }

  /** At most three short-term and two medium-term goals, and one long-term goal exactly when there are top careers. */
  lemma LearningGoalsSpec(gaps: seq<SkillGap>, top: seq<TopCareer>)
    ensures var goals := LearningGoals(gaps, top);
      |Filter(goals, TermIs(ShortTerm))| <= 3
      && |Filter(goals, TermIs(MediumTerm))| <= 2
      && |Filter(goals, TermIs(LongTerm))| == (if |top| > 0 then 1 else 0)
      && |goals| <= 6
  {
    var s := ShortGoals(Take(Filter(gaps, AtDifficulty(Beginner)), 3));
    var m := MediumGoals(Take(Filter(gaps, AtDifficulty(Intermediate)), 2));
    var l := LongGoals(top);
    GoalsOfTerm(s, m, l, ShortTerm);
    GoalsOfTerm(s, m, l, MediumTerm);
    GoalsOfTerm(s, m, l, LongTerm);
  }

  datatype PlanResult =
    | NoCareers
    | Raises
    | Plan(gaps: seq<SkillGap>, courses: seq<CourseRec>, certifications: seq<CertRec>, projects: seq<ProjectRec>,
           timeline: seq<Entry>, metrics: LearningMetrics, goals: seq<Goal>)

  /** A course whose completion time could not be computed aborts the plan. */
  predicate CompletionFails(courses: seq<CourseRec>)
  {
    exists i :: 0 <= i < |courses| && courses[i].completion.None?
  }

  /** The pass that computes every completion time, stopping at the first that raises. */
  method AllCompletionTimes(courses: seq<CourseRec>) returns (ok: bool)
    ensures ok <==> !CompletionFails(courses)
  {
    var k := 0;
    while k < |courses|
      invariant 0 <= k <= |courses|
      invariant forall i :: 0 <= i < k ==> courses[i].completion.Some?
    {
      if courses[k].completion.None? {
        return false;
      }
      k := k + 1;
    }
    return true;
  }

  /**
   * `generate_plan`: an error without top careers; otherwise the gaps, the recommendations,
   * the timeline, the metrics and the goals. The study schedule and progress tracking are
   * fixed tables.
   */
  method GeneratePlan(top: seq<TopCareer>, current: seq<string>, courseCatalogue: Dict<seq<Course>>,
                      certCatalogue: Dict<seq<Certification>>, projectCatalogue: Dict<seq<Project>>)
    returns (r: PlanResult)
    ensures r.NoCareers? <==> |top| == 0
    ensures r.Raises? <==> |top| > 0 && CompletionFails(RecommendCourses(SkillGaps(top, current), courseCatalogue))
    ensures r.Plan? ==>
      r.gaps == SkillGaps(top, current)
      && r.courses == RecommendCourses(r.gaps, courseCatalogue)
      && r.certifications == RecommendCertifications(r.gaps, certCatalogue)
      && r.projects == RecommendProjects(r.gaps, projectCatalogue)
      && ActivitiesOf(r.timeline) == Activities(r.courses, r.certifications, r.projects)
      && Contiguous(r.timeline)
      && r.metrics == Metrics(r.gaps, r.courses, r.certifications)
      && r.goals == LearningGoals(r.gaps, top)
  {
    if |top| == 0 {
      return NoCareers;
    }
    var gaps := IdentifySkillGaps(top, current);
    var courses := CollectCourses(gaps, courseCatalogue);
    var ok := AllCompletionTimes(courses);
    if !ok {
      return Raises;
    }
    var certs := RecommendCertifications(gaps, certCatalogue);
    var projects := CollectProjects(gaps, projectCatalogue);
    var timeline := CreateLearningTimeline(courses, certs, projects);
    r := Plan(gaps, courses, certs, projects, timeline, Metrics(gaps, courses, certs), LearningGoals(gaps, top));
  }
}
