/**
 * The skill-mapping engine's analysis: the catalogue of available skills split into the
 * student's matched skills and the gaps, the strength score, the category counts, and the
 * strength and improvement messages. The catalogue (read from the database) is a
 * parameter; the similarity-based recommendations are not part of this model.
 */
module SkillMapping {
  import opened Common

  datatype Skill = Skill(name: string, category: string, description: string)

  function Named(names: seq<string>): Skill -> bool
  {
    (s: Skill) => s.name in names
  }

  function InCategory(category: string): Skill -> bool
  {
    (s: Skill) => s.category == category
  }

  function NamesOf(skills: seq<Skill>): (r: seq<string>)
    ensures |r| == |skills|
    ensures forall i :: 0 <= i < |skills| ==> r[i] == skills[i].name
  {
    seq(|skills|, i requires 0 <= i < |skills| => skills[i].name)
  }

  // ---------------------------------------------------------------------------------------
  // Matched skills and gaps
  // ---------------------------------------------------------------------------------------

  /** The loop of `analyze_skills`: each available skill is matched or a gap, in order. */
  method PartitionSkills(available: seq<Skill>, studentSkills: seq<string>) returns (matched: seq<Skill>, gaps: seq<Skill>)
    ensures matched == Filter(available, Named(studentSkills))
    ensures gaps == Filter(available, Not(Named(studentSkills)))
  {
    matched, gaps := [], [];
    assert available[..0] == [];
    for k := 0 to |available|
      invariant matched == Filter(available[..k], Named(studentSkills))
      invariant gaps == Filter(available[..k], Not(Named(studentSkills)))
    {
      assert available[..k + 1][..k] == available[..k];
      if available[k].name in studentSkills {
        matched := matched + [available[k]];
      } else {
        gaps := gaps + [available[k]];
      }
    }
    assert available[..|available|] == available;
  }

  /**
   * Every available skill is in exactly one of the two lists: matched exactly when the
   * student lists its name.
   */
  lemma PartitionSpec(available: seq<Skill>, studentSkills: seq<string>, s: Skill)
    ensures var matched, gaps := Filter(available, Named(studentSkills)), Filter(available, Not(Named(studentSkills)));
      multiset(matched) + multiset(gaps) == multiset(available)
      && |matched| + |gaps| == |available|
      && (s in matched <==> s in available && s.name in studentSkills)
      && (s in gaps <==> s in available && s.name !in studentSkills)
  {
    var matched, gaps := Filter(available, Named(studentSkills)), Filter(available, Not(Named(studentSkills)));
    FilterPartition(available, Named(studentSkills));
    FilterMembers(available, Named(studentSkills));
    FilterMembers(available, Not(Named(studentSkills)));
    assert |multiset(matched) + multiset(gaps)| == |available|;
  }

  // ---------------------------------------------------------------------------------------
  // Counts
  // ---------------------------------------------------------------------------------------

  /** Two tests that never hold together keep at most the whole list between them. */
  lemma {:induction false} ExclusiveFilters(xs: seq<Skill>, a: string, b: string)
    requires a != b
    ensures |Filter(xs, InCategory(a))| + |Filter(xs, InCategory(b))| <= |xs|
    decreases |xs|
  {
    if |xs| > 0 {
      ExclusiveFilters(xs[..|xs| - 1], a, b);
    }
  }

  /** `len` of the matched skills of one category. */
  function CategoryCount(matched: seq<Skill>, category: string): nat
  {
    |Filter(matched, InCategory(category))|
  }

  /** `len(matched) / len(available) * 100`; the division fails for an empty catalogue. */
  function StrengthScore(matched: seq<Skill>, available: seq<Skill>): real
    requires |available| > 0
  {
    Percent(|matched|, |available|)
  }

  // ---------------------------------------------------------------------------------------
  // Strengths
  // ---------------------------------------------------------------------------------------

  datatype Strength =
    | NoSkillsAssessed
    | TechnicalFoundation(count: nat)
    | SoftSkillsDevelopment(count: nat)
    | ProgrammingExpertise
    | AiMlKnowledge
    | LeadershipCapabilities
    | BuildingSkillFoundation

  /** The messages accumulated for the counts and the three named-skill tests. */
  function StrengthLinesOf(technical: nat, soft: nat, python: bool, ml: bool, management: bool): seq<Strength>
  {
    When(technical > 0, TechnicalFoundation(technical)) + When(soft > 0, SoftSkillsDevelopment(soft))
    + When(python, ProgrammingExpertise) + When(ml, AiMlKnowledge) + When(management, LeadershipCapabilities)
  }

  /** Each message appears exactly when its test holds. */
  lemma StrengthLinesSpec(technical: nat, soft: nat, python: bool, ml: bool, management: bool)
    ensures var r := StrengthLinesOf(technical, soft, python, ml, management);
      (TechnicalFoundation(technical) in r <==> technical > 0)
      && (SoftSkillsDevelopment(soft) in r <==> soft > 0)
      && (ProgrammingExpertise in r <==> python)
      && (AiMlKnowledge in r <==> ml)
      && (LeadershipCapabilities in r <==> management)
      && (|r| == 0 <==> technical == 0 && soft == 0 && !python && !ml && !management)
  {
    var w1, w2 := When(technical > 0, TechnicalFoundation(technical)), When(soft > 0, SoftSkillsDevelopment(soft));
    var w3, w4, w5 := When(python, ProgrammingExpertise), When(ml, AiMlKnowledge), When(management, LeadershipCapabilities);
    var all := w1 + w2 + w3 + w4 + w5;
    assert |all| == |w1| + |w2| + |w3| + |w4| + |w5|;
    InFive(w1, w2, w3, w4, w5, TechnicalFoundation(technical));
    InFive(w1, w2, w3, w4, w5, SoftSkillsDevelopment(soft));
    InFive(w1, w2, w3, w4, w5, ProgrammingExpertise);
    InFive(w1, w2, w3, w4, w5, AiMlKnowledge);
    InFive(w1, w2, w3, w4, w5, LeadershipCapabilities);
  }

  /** The messages `_identify_strengths` accumulates before its fallback. */
  function StrengthLines(matched: seq<Skill>): seq<Strength>
  {
    var names := NamesOf(matched);
    StrengthLinesOf(CategoryCount(matched, "Technical"), CategoryCount(matched, "Soft Skills"),
                    "Python Programming" in names, "Machine Learning" in names, "Project Management" in names)
  }

  function Strengths(matched: seq<Skill>): seq<Strength>
  {
    if |matched| == 0 then [NoSkillsAssessed]
    else
      var lines := StrengthLines(matched);
      if |lines| > 0 then lines else [BuildingSkillFoundation]
  }

  /** The appends of `_identify_strengths`, one per test that holds. */
  method AppendStrengthLines(technical: nat, soft: nat, python: bool, ml: bool, management: bool)
    returns (r: seq<Strength>)
    ensures r == StrengthLinesOf(technical, soft, python, ml, management)
  {
    r := [];
    if technical > 0 {
      r := r + [TechnicalFoundation(technical)];
    }
    ghost var r1 := r;
    assert r1 == When(technical > 0, TechnicalFoundation(technical));
    if soft > 0 {
      r := r + [SoftSkillsDevelopment(soft)];
    }
    assert r == r1 + When(soft > 0, SoftSkillsDevelopment(soft));
    ghost var r2 := r;
    if python {
      r := r + [ProgrammingExpertise];
    }
    assert r == r2 + When(python, ProgrammingExpertise);
    ghost var r3 := r;
    if ml {
      r := r + [AiMlKnowledge];
    }
    assert r == r3 + When(ml, AiMlKnowledge);
    ghost var r4 := r;
    if management {
      r := r + [LeadershipCapabilities];
    }
    assert r == r4 + When(management, LeadershipCapabilities);
  }

  /** `_identify_strengths`: the appended messages, or the fallback when none applies. */
  method IdentifyStrengths(matched: seq<Skill>) returns (r: seq<Strength>)
    ensures r == Strengths(matched)
  {
    if |matched| == 0 {
      return [NoSkillsAssessed];
    }
    var technical := |Filter(matched, InCategory("Technical"))|;
    var soft := |Filter(matched, InCategory("Soft Skills"))|;
    var names := NamesOf(matched);
    var python, ml, management := "Python Programming" in names, "Machine Learning" in names, "Project Management" in names;
    r := AppendStrengthLines(technical, soft, python, ml, management);
    assert r == StrengthLines(matched);
    if |r| == 0 {
      r := [BuildingSkillFoundation];
    }
  }

  /**
   * The strengths are never empty; "no skills assessed" appears exactly without matches;
   * the category lines carry the category counts and appear exactly when those are
   * positive; the named-skill lines appear exactly for those skills; the fallback appears
   * exactly when matches exist but no other line applies.
   */
  lemma StrengthsSpec(matched: seq<Skill>)
    ensures var r := Strengths(matched);
      var names := NamesOf(matched);
      var technical, soft := CategoryCount(matched, "Technical"), CategoryCount(matched, "Soft Skills");
      |r| > 0
      && (r == [NoSkillsAssessed] <==> |matched| == 0)
      && (|matched| > 0 ==>
            (TechnicalFoundation(technical) in r <==> technical > 0)
            && (SoftSkillsDevelopment(soft) in r <==> soft > 0)
            && (ProgrammingExpertise in r <==> "Python Programming" in names)
            && (AiMlKnowledge in r <==> "Machine Learning" in names)
            && (LeadershipCapabilities in r <==> "Project Management" in names)
            && (r == [BuildingSkillFoundation]
                <==> technical == 0 && soft == 0 && "Python Programming" !in names
                     && "Machine Learning" !in names && "Project Management" !in names))
  {
    var names := NamesOf(matched);
    var technical, soft := CategoryCount(matched, "Technical"), CategoryCount(matched, "Soft Skills");
    StrengthLinesSpec(technical, soft, "Python Programming" in names, "Machine Learning" in names,
                      "Project Management" in names);
  }

  // ---------------------------------------------------------------------------------------
  // Improvement areas
  // ---------------------------------------------------------------------------------------

  datatype Improvement =
    | AllCoreSkillsCovered
    | EssentialSoftSkills
    | TechnicalExpansion
    | ProgrammingAndTechnical
    | GeneralSkillDevelopment

  const CriticalSkills: seq<string> := ["Communication", "Problem Solving", "Critical Thinking"]

  /** The messages accumulated for the three tests. */
  function ImprovementLinesOf(critical: bool, technical: bool, techInterest: bool): seq<Improvement>
  {
    When(critical, EssentialSoftSkills) + When(technical, TechnicalExpansion)
    + When(techInterest && technical, ProgrammingAndTechnical)
  }

  /** Each message appears exactly when its test holds; the programming line needs a technical gap. */
  lemma ImprovementLinesSpec(critical: bool, technical: bool, techInterest: bool)
    ensures var r := ImprovementLinesOf(critical, technical, techInterest);
      (EssentialSoftSkills in r <==> critical)
      && (TechnicalExpansion in r <==> technical)
      && (ProgrammingAndTechnical in r <==> technical && techInterest)
      && (|r| == 0 <==> !critical && !technical)
  {
  }

  function ImprovementLines(gaps: seq<Skill>, interests: seq<string>): seq<Improvement>
  {
    ImprovementLinesOf(|Filter(gaps, Named(CriticalSkills))| > 0, |Filter(gaps, InCategory("Technical"))| > 0,
                       "Technology" in interests || "Programming" in interests)
  }

  function Improvements(gaps: seq<Skill>, interests: seq<string>): seq<Improvement>
  {
    if |gaps| == 0 then [AllCoreSkillsCovered]
    else
      var lines := ImprovementLines(gaps, interests);
      if |lines| > 0 then lines else [GeneralSkillDevelopment]
  }

  /** With gaps, the lines for the three tests, or the general advice when none holds. */
  lemma ImprovementsWithGaps(critical: bool, technical: bool, techInterest: bool, r: seq<Improvement>)
    requires var lines := ImprovementLinesOf(critical, technical, techInterest);
      r == if |lines| > 0 then lines else [GeneralSkillDevelopment]
    ensures |r| > 0 && r != [AllCoreSkillsCovered]
    ensures (EssentialSoftSkills in r <==> critical) && (TechnicalExpansion in r <==> technical)
      && (ProgrammingAndTechnical in r <==> technical && techInterest)
      && (r == [GeneralSkillDevelopment] <==> !critical && !technical)
  {
    ImprovementLinesSpec(critical, technical, techInterest);
    var lines := ImprovementLinesOf(critical, technical, techInterest);
    if |lines| > 0 {
      assert lines[0] != AllCoreSkillsCovered && lines[0] != GeneralSkillDevelopment;
    }
  }

  /** `_identify_improvement_areas`, appending one message per test that holds. */
  method IdentifyImprovementAreas(gaps: seq<Skill>, interests: seq<string>) returns (r: seq<Improvement>)
    ensures r == Improvements(gaps, interests)
  {
    if |gaps| == 0 {
      return [AllCoreSkillsCovered];
    }
    r := [];
    var critical := Filter(gaps, Named(CriticalSkills));
    if |critical| > 0 {
      r := r + [EssentialSoftSkills];
    }
    assert r == When(|critical| > 0, EssentialSoftSkills);
    ghost var r1 := r;
    var technical := Filter(gaps, InCategory("Technical"));
    if |technical| > 0 {
      r := r + [TechnicalExpansion];
    }
    assert r == r1 + When(|technical| > 0, TechnicalExpansion);
    ghost var r2 := r;
    var techInterest := "Technology" in interests || "Programming" in interests;
    if techInterest {
      var tech := Filter(gaps, InCategory("Technical"));
      if |tech| > 0 {
        r := r + [ProgrammingAndTechnical];
      }
    }
    assert r == r2 + When(techInterest && |technical| > 0, ProgrammingAndTechnical);
    assert r == ImprovementLinesOf(|critical| > 0, |technical| > 0, techInterest);
    if |r| == 0 {
      r := [GeneralSkillDevelopment];
    }
  }

  /** A filter keeps something exactly when some element passes its test. */
  lemma FilterNonEmpty(xs: seq<Skill>, p: Skill -> bool)
    ensures |Filter(xs, p)| > 0 <==> exists i :: 0 <= i < |xs| && p(xs[i])
  {
    var f := Filter(xs, p);
    FilterMembers(xs, p);
    if |f| > 0 {
      assert f[0] in f;
    }
    if exists i :: 0 <= i < |xs| && p(xs[i]) {
      var i :| 0 <= i < |xs| && p(xs[i]);
      assert xs[i] in f;
    }
  }

  /**
   * The improvement areas are never empty; "all covered" appears exactly without gaps;
   * the soft-skills line exactly when a critical skill is missing, the technical line
   * exactly when a technical skill is missing, the programming line exactly when in
   * addition the interests name technology or programming (so never without the
   * technical line); the fallback exactly when gaps exist but none of these applies.
   */
  lemma ImprovementsSpec(gaps: seq<Skill>, interests: seq<string>)
    ensures var r := Improvements(gaps, interests);
      var critical := exists i :: 0 <= i < |gaps| && gaps[i].name in CriticalSkills;
      var technical := exists i :: 0 <= i < |gaps| && gaps[i].category == "Technical";
      |r| > 0
      && (r == [AllCoreSkillsCovered] <==> |gaps| == 0)
      && (|gaps| > 0 ==>
            (EssentialSoftSkills in r <==> critical)
            && (TechnicalExpansion in r <==> technical)
            && (ProgrammingAndTechnical in r <==> technical && ("Technology" in interests || "Programming" in interests))
            && (ProgrammingAndTechnical in r ==> TechnicalExpansion in r)
            && (r == [GeneralSkillDevelopment] <==> !critical && !technical))
  {
    if |gaps| > 0 {
      FilterNonEmpty(gaps, Named(CriticalSkills));
      FilterNonEmpty(gaps, InCategory("Technical"));
      ImprovementsWithGaps(|Filter(gaps, Named(CriticalSkills))| > 0, |Filter(gaps, InCategory("Technical"))| > 0,
                           "Technology" in interests || "Programming" in interests, Improvements(gaps, interests));
    }
  }

  // ---------------------------------------------------------------------------------------
  // analyze_skills
  // ---------------------------------------------------------------------------------------

  datatype SkillAnalysis = SkillAnalysis(matched: seq<Skill>, gaps: seq<Skill>, strengthScore: real,
                                         technicalCount: nat, softCount: nat, totalAvailable: nat,
                                         strengths: seq<Strength>, improvements: seq<Improvement>)

  /** The analysis for a non-empty catalogue. */
  function AnalysisOf(studentSkills: seq<string>, interests: seq<string>, available: seq<Skill>): SkillAnalysis
    requires |available| > 0
  {
    var matched := Filter(available, Named(studentSkills));
    var gaps := Filter(available, Not(Named(studentSkills)));
    SkillAnalysis(matched, Take(gaps, 10), StrengthScore(matched, available), CategoryCount(matched, "Technical"),
                  CategoryCount(matched, "Soft Skills"), |available|, Strengths(matched), Improvements(gaps, interests))
  }

  /**
   * `analyze_skills`: `None` for an empty catalogue, where the strength score divides by
   * zero.
   */
  method AnalyzeSkills(studentSkills: seq<string>, interests: seq<string>, available: seq<Skill>)
    returns (r: Option<SkillAnalysis>)
    ensures r.None? <==> |available| == 0
    ensures r.Some? ==> r.value == AnalysisOf(studentSkills, interests, available)
  {
    var matched, gaps := PartitionSkills(available, studentSkills);
    if |available| == 0 {
      return None;
    }
    var strength := (|matched| as real / |available| as real) * 100.0;
    var technical := |Filter(matched, InCategory("Technical"))|;
    var soft := |Filter(matched, InCategory("Soft Skills"))|;
    var strengths := IdentifyStrengths(matched);
    var improvements := IdentifyImprovementAreas(gaps, interests);
    r := Some(SkillAnalysis(matched, Take(gaps, 10), strength, technical, soft, |available|, strengths, improvements));
  }

  /**
   * The strength score is a percentage, 100 exactly when every available skill is matched
   * and 0 exactly when none is.
   */
  lemma StrengthScoreSpec(studentSkills: seq<string>, available: seq<Skill>)
    requires |available| > 0
    ensures var matched := Filter(available, Named(studentSkills));
      var s := StrengthScore(matched, available);
      0.0 <= s <= 100.0
      && (s == 100.0 <==> |Filter(available, Not(Named(studentSkills)))| == 0)
      && (s == 0.0 <==> |matched| == 0)
  {
    var matched := Filter(available, Named(studentSkills));
    PartitionSpec(available, studentSkills, Skill("", "", ""));
    PercentFull(|matched|, |available|);
    PercentZero(|matched|, |available|);
  }

  /**
   * At most ten gaps are reported, the first ones in catalogue order; the technical and
   * soft counts add up to at most the matched skills; both message lists are non-empty.
   */
  lemma AnalysisSpec(studentSkills: seq<string>, interests: seq<string>, available: seq<Skill>)
    requires |available| > 0
    ensures var a := AnalysisOf(studentSkills, interests, available);
      var allGaps := Filter(available, Not(Named(studentSkills)));
      |a.gaps| == Min(10, |allGaps|) && a.gaps <= allGaps
      && a.strengthScore == StrengthScore(a.matched, available)
      && a.technicalCount + a.softCount <= |a.matched|
      && a.totalAvailable == |available|
      && |a.strengths| > 0 && |a.improvements| > 0
  {
    var a := AnalysisOf(studentSkills, interests, available);
    ExclusiveFilters(a.matched, "Technical", "Soft Skills");
    StrengthsSpec(a.matched);
    ImprovementsSpec(Filter(available, Not(Named(studentSkills))), interests);
  }
}
