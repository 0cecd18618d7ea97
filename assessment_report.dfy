/**
 * Completing a skill assessment: raw scores normalised against the largest total the bank
 * can award, the weighted category report with strengths and weaknesses, the
 * recommendations, and the comparison of a user's two newest saved assessments.
 */
module AssessmentReport {
  import opened Common
  import opened Text
  import opened SkillAssessment

  // ---------------------------------------------------------------------------------------
  // The largest reachable score of a skill
  // ---------------------------------------------------------------------------------------

  /**
   * The top level a mapping gives a skill, 0 when the mapping does not name it (a valid
   * bank has no empty level list).
   */
  function TopLevel(mapping: Dict<seq<nat>>, skill: string): (r: nat)
    ensures forall i :: Increment(GetOr<seq<nat>>(mapping, skill, []), i) <= r
  {
    var levels := GetOr<seq<nat>>(mapping, skill, []);
    if |levels| > 0 then MaxLevel(levels) else 0
  }

  /** The sum of a skill's top levels over a list of items. */
  function ItemsMax(items: seq<Item>, skill: string): nat
  {
    if |items| == 0 then 0
    else ItemsMax(items[..|items| - 1], skill) + TopLevel(items[|items| - 1].mapping, skill)
  }

  /** The most a skill can earn over the whole bank. */
  function MaxPossible(b: Bank, skill: string): nat
  {
    ItemsMax(AllItems(b), skill)
  }

  /** Extending the item list by the next item of a phase adds that item's top level. */
  lemma ItemsMaxStep(before: seq<Item>, items: seq<Item>, q: nat, skill: string)
    requires q < |items|
    ensures ItemsMax(before + items[..q + 1], skill) == ItemsMax(before + items[..q], skill) + TopLevel(items[q].mapping, skill)
  {
    var xs := before + items[..q + 1];
    assert xs[..|xs| - 1] == before + items[..q];
    assert xs[|xs| - 1] == items[q];
  }

  /** `_get_max_possible_score`: a pass over every phase and every item of the phase. */
  method MaxPossibleScore(b: Bank, skill: string) returns (m: nat)
    ensures m == MaxPossible(b, skill)
  {
    m := 0;
    var p := 0;
    assert b[..0] == [];
    while p < |b|
      invariant 0 <= p <= |b|
      invariant m == ItemsMax(AllItems(b[..p]), skill)
    {
      ghost var before := AllItems(b[..p]);
      var items := b[p].items;
      var q := 0;
      assert before + items[..0] == before;
      while q < |items|
        invariant 0 <= q <= |items|
        invariant m == ItemsMax(before + items[..q], skill)
      {
        ItemsMaxStep(before, items, q, skill);
        m := m + TopLevel(items[q].mapping, skill);
        q := q + 1;
      }
      assert before + items[..q] == AllItems(b[..p + 1]) by {
        assert items[..q] == items;
        AllItemsPrefix(b, p);
      }
      p := p + 1;
    }
    assert b[..p] == b;
  }

  /** The raw scores after answering `items` in order with `answers`, starting from none. */
  function ScoresAfter(items: seq<Item>, answers: seq<Answer>): Dict<int>
    requires |answers| == |items|
  {
    if |items| == 0 then []
    else
      var n := |items| - 1;
      UpdatedScores(ScoresAfter(items[..n], answers[..n]), items[n].mapping, AnswerIndex(items[n].kind, answers[n]))
  }

  /**
   * Answering items once each, whatever the answers, no skill's raw score goes below 0 or
   * above the sum of its top levels over those items.
   */
  lemma {:induction false} RawWithinMax(items: seq<Item>, answers: seq<Answer>, skill: string)
    requires |answers| == |items|
    requires forall j :: 0 <= j < |items| ==> DistinctKeys(items[j].mapping)
    ensures 0 <= GetOr<int>(ScoresAfter(items, answers), skill, 0) <= ItemsMax(items, skill)
    decreases |items|
  {
    if |items| > 0 {
      var n := |items| - 1;
      assert forall j :: 0 <= j < n ==> items[..n][j] == items[j];
      RawWithinMax(items[..n], answers[..n], skill);
      var prev := ScoresAfter(items[..n], answers[..n]);
      UpdatedScoresGet(prev, items[n].mapping, AnswerIndex(items[n].kind, answers[n]), skill);
    }
  }

  /** Every item of a valid bank has a valid mapping. */
  lemma {:induction false} BankMappingsValid(b: Bank)
    requires forall p, q :: 0 <= p < |b| && 0 <= q < |b[p].items| ==> ValidMapping(b[p].items[q].mapping)
    ensures forall j :: 0 <= j < |AllItems(b)| ==> ValidMapping(AllItems(b)[j].mapping)
    decreases |b|
  {
    if |b| > 0 {
      var init := b[..|b| - 1];
      assert forall p :: 0 <= p < |init| ==> init[p] == b[p];
      BankMappingsValid(init);
      var a, items := AllItems(init), b[|b| - 1].items;
      forall j | 0 <= j < |AllItems(b)|
        ensures ValidMapping(AllItems(b)[j].mapping)
      {
        if j < |a| {
          assert AllItems(b)[j] == a[j];
        } else {
          assert AllItems(b)[j] == items[j - |a|];
        }
      }
    }
  }

  // ---------------------------------------------------------------------------------------
  // Normalised scores
  // ---------------------------------------------------------------------------------------

  /** `min(100, raw / max * 100)`, or 0 when the bank awards nothing; rounding is not modelled. */
  function FinalScore(raw: int, max: nat): real
  {
    if max > 0 then MinReal(100.0, (raw as real / max as real) * 100.0) else 0.0
  }

  /**
   * A non-negative raw score normalises into [0, 100]; at or below the maximum it is the
   * plain percentage, at or above it the score is capped at 100.
   */
  lemma FinalScoreBounds(raw: int, max: nat)
    requires raw >= 0
    ensures 0.0 <= FinalScore(raw, max) <= 100.0
    ensures max == 0 ==> FinalScore(raw, max) == 0.0
    ensures 0 < max && raw <= max ==> FinalScore(raw, max) == (raw as real / max as real) * 100.0
    ensures 0 < max && raw >= max ==> FinalScore(raw, max) == 100.0
  {
    if max > 0 {
      var x := raw as real / max as real;
      assert x >= 0.0;
      assert raw <= max ==> x <= 1.0;
      assert raw >= max ==> x >= 1.0;
    }
  }

  /** `_calculate_final_scores`: every raw score normalised, in the same order. */
  function FinalScores(b: Bank, raw: Dict<int>): (r: Dict<real>)
    ensures Keys(r) == Keys(raw)
  {
    seq(|raw|, j requires 0 <= j < |raw| => (raw[j].0, FinalScore(raw[j].1, MaxPossible(b, raw[j].0))))
  }

  /** Every value of a dict lies in [lo, hi]. */
  predicate Within(d: Dict<real>, lo: real, hi: real)
  {
    forall j :: 0 <= j < |d| ==> lo <= d[j].1 <= hi
  }

  /** Non-negative raw scores give final scores in [0, 100]. */
  lemma FinalScoresWithin(b: Bank, raw: Dict<int>)
    requires NonNegative(raw)
    ensures Within(FinalScores(b, raw), 0.0, 100.0)
  {
    forall j | 0 <= j < |raw|
      ensures 0.0 <= FinalScores(b, raw)[j].1 <= 100.0
    {
      FinalScoreBounds(raw[j].1, MaxPossible(b, raw[j].0));
    }
  }

  /**
   * After one in-order pass over a valid bank no final score is capped: each is the skill's
   * raw score as a percentage of its maximum.
   */
  lemma InOrderNotCapped(b: Bank, answers: seq<Answer>, skill: string)
    requires ValidBank(b) && |answers| == TotalItems(b)
    requires MaxPossible(b, skill) > 0
    ensures var raw := GetOr<int>(ScoresAfter(AllItems(b), answers), skill, 0);
      FinalScore(raw, MaxPossible(b, skill)) == (raw as real / MaxPossible(b, skill) as real) * 100.0
  {
    BankMappingsValid(b);
    RawWithinMax(AllItems(b), answers, skill);
    FinalScoreBounds(GetOr<int>(ScoresAfter(AllItems(b), answers), skill, 0), MaxPossible(b, skill));
  }

  /** A value read from a dict within bounds is within them. */
  lemma GetWithin(d: Dict<real>, k: string, lo: real, hi: real)
    requires Within(d, lo, hi) && k in Keys(d)
    ensures lo <= GetOr<real>(d, k, 0.0) <= hi
  {
    GetNone(d, k);
    GetEntry(d, k);
  }

  // ---------------------------------------------------------------------------------------
  // Categories and the overall score
  // ---------------------------------------------------------------------------------------

  datatype CategoryResult = CategoryResult(name: string, weight: real, skills: Dict<real>, average: real)

  function Scored(final: Dict<real>): string -> bool
  {
    s => s in Keys(final)
  }

  /** The category's skills that have a final score, with that score. */
  function CategorySkills(skills: seq<string>, final: Dict<real>): Dict<real>
  {
    if |skills| == 0 then []
    else
      var prev := CategorySkills(skills[..|skills| - 1], final);
      var s := skills[|skills| - 1];
      if s in Keys(final) then Put(prev, s, GetOr<real>(final, s, 0.0)) else prev
  }

  /** The scores averaged for a category, one per listed skill that has a final score. */
  function CategoryScores(skills: seq<string>, final: Dict<real>): seq<real>
  {
    if |skills| == 0 then []
    else
      var prev := CategoryScores(skills[..|skills| - 1], final);
      var s := skills[|skills| - 1];
      if s in Keys(final) then prev + [GetOr<real>(final, s, 0.0)] else prev
  }

  /** A category of the report: its scored skills and their mean (0 when none is scored). */
  function CategoryResultOf(c: Category, final: Dict<real>): CategoryResult
  {
    CategoryResult(c.name, c.weight, CategorySkills(c.skills, final), Mean(CategoryScores(c.skills, final)))
  }

  /**
   * A category lists exactly its scored skills, in the category's order, and averages one
   * score per scored skill; every averaged score is within the final scores' bounds.
   */
  lemma {:induction false} CategoryContents(skills: seq<string>, final: Dict<real>, lo: real, hi: real)
    requires Distinct(skills) && Within(final, lo, hi)
    ensures Keys(CategorySkills(skills, final)) == Filter(skills, Scored(final))
    ensures |CategoryScores(skills, final)| == |Filter(skills, Scored(final))|
    ensures forall i :: 0 <= i < |CategoryScores(skills, final)| ==> lo <= CategoryScores(skills, final)[i] <= hi
    decreases |skills|
  {
    if |skills| > 0 {
      var init, s := skills[..|skills| - 1], skills[|skills| - 1];
      assert forall i, j :: 0 <= i < j < |init| ==> init[i] == skills[i] && init[j] == skills[j];
      CategoryContents(init, final, lo, hi);
      if s in Keys(final) {
        var prev := CategorySkills(init, final);
        FilterMembers(init, Scored(final));
        assert s !in init;
        PutKeys(prev, s, GetOr<real>(final, s, 0.0));
        GetWithin(final, s, lo, hi);
      }
    }
  }

  /**
   * With final scores in [0, 100], a category's average is in [0, 100], and it is 0 when
   * none of its skills is scored.
   */
  lemma CategoryAverageBounds(c: Category, final: Dict<real>)
    requires Distinct(c.skills) && Within(final, 0.0, 100.0)
    ensures 0.0 <= CategoryResultOf(c, final).average <= 100.0
    ensures Filter(c.skills, Scored(final)) == [] ==> CategoryResultOf(c, final).average == 0.0
  {
    CategoryContents(c.skills, final, 0.0, 100.0);
    var xs := CategoryScores(c.skills, final);
    if |xs| > 0 {
      MeanBounds(xs, 0.0, 100.0);
    }
  }

  function CategoryResults(cs: seq<Category>, final: Dict<real>): (r: seq<CategoryResult>)
    ensures |r| == |cs|
    ensures forall c :: 0 <= c < |cs| ==> r[c] == CategoryResultOf(cs[c], final)
  {
    seq(|cs|, c requires 0 <= c < |cs| => CategoryResultOf(cs[c], final))
  }

  /** Adds a category with a positive average to the weighted sum and the total weight. */
  function Accumulate(sums: (real, real), c: CategoryResult): (real, real)
  {
    if c.average > 0.0 then (sums.0 + c.average * c.weight, sums.1 + c.weight) else sums
  }

  /** The weighted sum and the total weight over the categories whose average is positive. */
  function Weighted(cs: seq<CategoryResult>): (real, real)
  {
    if |cs| == 0 then (0.0, 0.0) else Accumulate(Weighted(cs[..|cs| - 1]), cs[|cs| - 1])
  }

  /** The overall score: the weighted mean of the positive category averages, else 0. */
  function Overall(cs: seq<CategoryResult>): real
  {
    var sums := Weighted(cs);
    if sums.1 > 0.0 then sums.0 / sums.1 else 0.0
  }

  /** The overall-score loop of `_generate_assessment_report`. */
  method OverallScore(cs: seq<CategoryResult>) returns (r: real)
    ensures r == Overall(cs)
  {
    var overall, total := 0.0, 0.0;
    var k := 0;
    while k < |cs|
      invariant 0 <= k <= |cs|
      invariant (overall, total) == Weighted(cs[..k])
    {
      WeightedSnoc(cs, k);
      if cs[k].average > 0.0 {
        overall := overall + cs[k].average * cs[k].weight;
        total := total + cs[k].weight;
      }
      k := k + 1;
    }
    assert cs[..k] == cs;
    r := if total > 0.0 then overall / total else 0.0;
  }

  lemma WeightedSnoc(cs: seq<CategoryResult>, k: nat)
    requires k < |cs|
    ensures Weighted(cs[..k + 1]) == Accumulate(Weighted(cs[..k]), cs[k])
  {
    assert cs[..k + 1][..k] == cs[..k] && cs[..k + 1][k] == cs[k];
  }

  predicate Positive(cs: seq<CategoryResult>)
  {
    exists c :: 0 <= c < |cs| && cs[c].average > 0.0
  }

  /**
   * With positive weights and averages at most `hi`, the weighted sum lies between 0 and
   * `hi` times the total weight, and both are positive exactly when some average is.
   */
  lemma {:induction false} WeightedBounds(cs: seq<CategoryResult>, hi: real)
    requires forall c :: 0 <= c < |cs| ==> cs[c].weight > 0.0 && cs[c].average <= hi
    ensures 0.0 <= Weighted(cs).0 <= hi * Weighted(cs).1 && 0.0 <= Weighted(cs).1
    ensures Weighted(cs).1 > 0.0 <==> Positive(cs)
    ensures Weighted(cs).0 > 0.0 <==> Positive(cs)
    decreases |cs|
  {
    if |cs| == 0 {
      assert hi * 0.0 == 0.0;
    } else {
      var n := |cs| - 1;
      var init := cs[..n];
      assert forall k :: 0 <= k < n ==> init[k] == cs[k];
      WeightedBounds(init, hi);
      assert cs[..n + 1] == cs;
      WeightedSnoc(cs, n);
      if cs[n].average > 0.0 {
        AddWeighted(Weighted(init).0, Weighted(init).1, cs[n].average, cs[n].weight, hi);
      }
      PositiveSnoc(cs);
    }
  }

  lemma AddWeighted(o: real, w: real, a: real, wt: real, hi: real)
    requires 0.0 <= o <= hi * w && 0.0 <= w && wt > 0.0 && 0.0 < a <= hi
    ensures 0.0 < o + a * wt <= hi * (w + wt)
  {
    assert a * wt > 0.0;
    assert a * wt <= hi * wt;
    assert hi * (w + wt) == hi * w + hi * wt;
  }

  lemma PositiveSnoc(cs: seq<CategoryResult>)
    requires |cs| > 0
    ensures Positive(cs) <==> Positive(cs[..|cs| - 1]) || cs[|cs| - 1].average > 0.0
  {
    var init := cs[..|cs| - 1];
    if Positive(cs) && !(cs[|cs| - 1].average > 0.0) {
      var k :| 0 <= k < |cs| && cs[k].average > 0.0;
      assert init[k] == cs[k];
    }
    if Positive(init) {
      var k :| 0 <= k < |init| && init[k].average > 0.0;
      assert cs[k] == init[k];
    }
  }

  /**
   * Category averages in [0, 100] with positive weights give an overall score in [0, 100],
   * positive exactly when some category average is.
   */
  lemma OverallBounds(cs: seq<CategoryResult>)
    requires forall c :: 0 <= c < |cs| ==> cs[c].weight > 0.0 && 0.0 <= cs[c].average <= 100.0
    ensures 0.0 <= Overall(cs) <= 100.0
    ensures Overall(cs) > 0.0 <==> Positive(cs)
  {
    WeightedBounds(cs, 100.0);
    var o, w := Weighted(cs).0, Weighted(cs).1;
    if w > 0.0 {
      assert o / w <= 100.0 by {
        assert o <= 100.0 * w;
      }
      assert o > 0.0 ==> o / w > 0.0;
    }
  }

  // ---------------------------------------------------------------------------------------
  // Strengths and weaknesses
  // ---------------------------------------------------------------------------------------

  function ScoreOf(e: (string, real)): real
  {
    e.1
  }

  function AtLeast(t: real): ((string, real)) -> bool
  {
    (e: (string, real)) => e.1 >= t
  }

  function Below(t: real): ((string, real)) -> bool
  {
    (e: (string, real)) => e.1 < t
  }

  /** The final scores, highest first; ties keep their order (Python's stable sort). */
  function Ranked(final: Dict<real>): Dict<real>
  {
    SortDesc(final, ScoreOf)
  }

  /** The first five ranked entries that pass the test. */
  function TopFive(final: Dict<real>, p: ((string, real)) -> bool): Dict<real>
  {
    Take(Filter(Ranked(final), p), 5)
  }

  /** Skills scoring at least 70, best first, at most five. */
  function Strengths(final: Dict<real>): seq<string>
  {
    Keys(TopFive(final, AtLeast(70.0)))
  }

  /** Skills scoring below 40, best first, at most five. */
  function Weaknesses(final: Dict<real>): seq<string>
  {
    Keys(TopFive(final, Below(40.0)))
  }

  /**
   * The selection holds at most five entries of the final scores, all passing the test,
   * highest first; an entry that passes but is left out means five were chosen, none
   * scoring below it.
   */
  lemma TopFiveSpec(final: Dict<real>, p: ((string, real)) -> bool, e: (string, real))
    ensures var top := TopFive(final, p);
      |top| <= 5
      && SortedDesc(top, ScoreOf)
      && (forall x :: x in top ==> x in final && p(x))
      && (e in final && p(e) && e !in top ==> |top| == 5 && forall i :: 0 <= i < 5 ==> top[i].1 >= e.1)
  {
    var ranked := Ranked(final);
    var kept := Filter(ranked, p);
    var top := TopFive(final, p);
    FilterSorted(ranked, ScoreOf, p);
    FilterMembers(ranked, p);
    assert forall i :: 0 <= i < |top| ==> top[i] == kept[i];
    forall x | x in top
      ensures x in final && p(x)
    {
      assert x in kept;
      assert x in multiset(ranked);
    }
    if e in final && p(e) && e !in top {
      assert e in multiset(final);
      assert e in kept;
      TakeTop(kept, ScoreOf, 5, e);
    }
  }

  /** With keys distinct, no strength is also a weakness. */
  lemma StrengthsWeaknessesDisjoint(final: Dict<real>, skill: string)
    requires DistinctKeys(final) && skill in Strengths(final)
    ensures skill !in Weaknesses(final)
  {
    var s, w := TopFive(final, AtLeast(70.0)), TopFive(final, Below(40.0));
    TopFiveSpec(final, AtLeast(70.0), ("", 0.0));
    TopFiveSpec(final, Below(40.0), ("", 0.0));
    var i :| 0 <= i < |s| && Keys(s)[i] == skill;
    assert s[i] in s;
    var a :| 0 <= a < |final| && final[a] == s[i];
    forall j | 0 <= j < |w|
      ensures Keys(w)[j] != skill
    {
      assert w[j] in w;
      var c :| 0 <= c < |final| && final[c] == w[j];
      assert a != c;
      assert Keys(final)[a] != Keys(final)[c];
    }
  }

  // ---------------------------------------------------------------------------------------
  // Recommendations
  // ---------------------------------------------------------------------------------------

  datatype Level = Novice | Beginner | Intermediate | Advanced | Expert

  /** How many of the first `n` thresholds a score reaches. */
  function Reached(thresholds: seq<real>, n: nat, score: real): nat
    requires n <= |thresholds|
  {
    if n == 0 then 0 else Reached(thresholds, n - 1, score) + (if score >= thresholds[n - 1] then 1 else 0)
  }

  const LevelThresholds: seq<real> := [20.0, 40.0, 60.0, 80.0]

  function LevelRank(l: Level): nat
  {
    match l
    case Novice => 0
    case Beginner => 1
    case Intermediate => 2
    case Advanced => 3
    case Expert => 4
  }

  /** `_get_skill_level`: the level's rank is the number of thresholds the score reaches. */
  function SkillLevel(score: real): (l: Level)
    ensures LevelRank(l) == Reached(LevelThresholds, 4, score)
  {
    ReachedLevels(score);
    if score >= 80.0 then Expert
    else if score >= 60.0 then Advanced
    else if score >= 40.0 then Intermediate
    else if score >= 20.0 then Beginner
    else Novice
  }

  lemma ReachedLevels(score: real)
    ensures Reached(LevelThresholds, 4, score)
      == (if score >= 20.0 then 1 else 0) + (if score >= 40.0 then 1 else 0)
       + (if score >= 60.0 then 1 else 0) + (if score >= 80.0 then 1 else 0)
  {
    var t := LevelThresholds;
    assert Reached(t, 1, score) == if score >= 20.0 then 1 else 0;
    assert Reached(t, 2, score) == Reached(t, 1, score) + if score >= 40.0 then 1 else 0;
    assert Reached(t, 3, score) == Reached(t, 2, score) + if score >= 60.0 then 1 else 0;
  }

  /** A higher score never gets a lower level. */
  lemma SkillLevelMonotone(a: real, b: real)
    requires a <= b
    ensures LevelRank(SkillLevel(a)) <= LevelRank(SkillLevel(b))
  {
  }

  function LevelName(l: Level): string
  {
    match l
    case Novice => "Novice"
    case Beginner => "Beginner"
    case Intermediate => "Intermediate"
    case Advanced => "Advanced"
    case Expert => "Expert"
  }

  datatype Priority = High | Medium

  datatype Development = Development(skill: string, level: Level, recommendation: string, priority: Priority)

  function DevelopmentAdvice(skill: string, l: Level): string
  {
    "Focus on developing " + skill + " - current level is " + LevelName(l)
  }

  function DevelopmentFor(e: (string, real)): Development
  {
    var l := SkillLevel(e.1);
    Development(e.0, l, DevelopmentAdvice(e.0, l), if e.1 < 30.0 then High else Medium)
  }

  /** One development entry per skill scoring below 50, in the order of the final scores. */
  function DevelopmentPlan(final: Dict<real>): seq<Development>
  {
    var weak := Filter(final, Below(50.0));
    seq(|weak|, j requires 0 <= j < |weak| => DevelopmentFor(weak[j]))
  }

  /** A development entry names the skill, the level of its score and the priority the score earns. */
  predicate Describes(d: Development, e: (string, real))
  {
    d.skill == e.0 && d.level == SkillLevel(e.1) && (d.priority == High <==> e.1 < 30.0)
  }

  /**
   * The plan describes, one by one and in order, the entries scoring below 50 and no
   * other: each entry carries its score's level and is high priority exactly when the score
   * is below 30.
   */
  lemma DevelopmentPlanSpec(final: Dict<real>)
    ensures var plan, weak := DevelopmentPlan(final), Filter(final, Below(50.0));
      |plan| == |weak|
      && (forall j :: 0 <= j < |plan| ==> Describes(plan[j], weak[j]))
      && (forall e :: e in weak <==> e in final && e.1 < 50.0)
  {
    FilterMembers(final, Below(50.0));
  }

  /** The skills scoring at least 70, in the order of the final scores. */
  function Strong(final: Dict<real>): seq<string>
  {
    Keys(Filter(final, AtLeast(70.0)))
  }

  const DataScientistPath := "Data Scientist"
  const ProjectManagerPath := "Project Manager"
  const FullStackPath := "Full Stack Developer"

  /** The paths whose pair of skills is strong, in the order the source checks them. */
  function CareerPathsOf(dataScience: bool, management: bool, fullStack: bool): seq<string>
  {
    When(dataScience, DataScientistPath) + When(management, ProjectManagerPath) + When(fullStack, FullStackPath)
  }

  /** The career paths suggested by pairs of strong skills. */
  function CareerPaths(strong: seq<string>): seq<string>
  {
    CareerPathsOf("Python Programming" in strong && "Data Analysis" in strong,
                  "Communication" in strong && "Leadership" in strong,
                  "JavaScript" in strong && "Python Programming" in strong)
  }

  /** Each path appears exactly when its test holds, and none twice. */
  lemma CareerPathsOfSpec(dataScience: bool, management: bool, fullStack: bool)
    ensures var r := CareerPathsOf(dataScience, management, fullStack);
      (DataScientistPath in r <==> dataScience) && (ProjectManagerPath in r <==> management)
      && (FullStackPath in r <==> fullStack) && Distinct(r) && |r| <= 3
  {
    var w1, w2, w3 := When(dataScience, DataScientistPath), When(management, ProjectManagerPath), When(fullStack, FullStackPath);
    assert |DataScientistPath| == 14 && |ProjectManagerPath| == 15 && |FullStackPath| == 20;
    var r := w1 + w2 + w3;
    forall i, j | 0 <= i < j < |r| ensures r[i] != r[j] {
      assert |r[i]| != |r[j]|;
    }
  }

  /** A skill is strong exactly when some entry gives it a score of at least 70. */
  lemma StrongSpec(final: Dict<real>, skill: string)
    ensures skill in Strong(final) <==> exists e :: e in final && e.0 == skill && e.1 >= 70.0
  {
    var kept := Filter(final, AtLeast(70.0));
    FilterMembers(final, AtLeast(70.0));
    if skill in Strong(final) {
      var i :| 0 <= i < |kept| && Keys(kept)[i] == skill;
      assert kept[i] in kept;
    }
    if exists e :: e in final && e.0 == skill && e.1 >= 70.0 {
      var e :| e in final && e.0 == skill && e.1 >= 70.0;
      assert e in kept;
      var i :| 0 <= i < |kept| && kept[i] == e;
      assert Keys(kept)[i] == skill;
    }
  }

  /** Each path is suggested exactly when both of its skills are strong, and none twice. */
  lemma CareerPathsSpec(strong: seq<string>)
    ensures var r := CareerPaths(strong);
      (DataScientistPath in r <==> "Python Programming" in strong && "Data Analysis" in strong)
      && (ProjectManagerPath in r <==> "Communication" in strong && "Leadership" in strong)
      && (FullStackPath in r <==> "JavaScript" in strong && "Python Programming" in strong)
      && Distinct(r) && |r| <= 3
  {
    CareerPathsOfSpec("Python Programming" in strong && "Data Analysis" in strong,
                      "Communication" in strong && "Leadership" in strong,
                      "JavaScript" in strong && "Python Programming" in strong);
  }

  datatype LearningResource = LearningResource(skill: string, resources: seq<string>)

  const DefaultResources: seq<string> := ["General online courses and tutorials"]

  /** `_get_learning_resources`: the catalogue's list for the skill, or the general default. */
  function ResourcesFor(catalogue: Dict<seq<string>>, skill: string): seq<string>
  {
    GetOr(catalogue, skill, DefaultResources)
  }

  const ResourceCatalogue: Dict<seq<string>> := [
    ("Python Programming", ["Python.org official tutorial", "Coursera Python for Everybody",
                            "NPTEL Python Programming course", "LeetCode Python practice problems"]),
    ("Machine Learning", ["Andrew Ng's Machine Learning course", "NPTEL Machine Learning course",
                          "Kaggle Learn modules", "Hands-on Machine Learning book"]),
    ("Data Analysis", ["Google Data Analytics Certificate", "NPTEL Data Science course",
                       "Pandas documentation and tutorials", "Tableau Public for visualization"]),
    ("Communication", ["LinkedIn Learning Communication courses", "Toastmasters International",
                       "NPTEL Professional Communication", "Practice presentation skills"])
  ]

  /** Resources for the first three skills of the development plan. */
  function LearningResources(plan: seq<Development>, catalogue: Dict<seq<string>>): seq<LearningResource>
  {
    var first := Take(plan, 3);
    seq(|first|, j requires 0 <= j < |first| => LearningResource(first[j].skill, ResourcesFor(catalogue, first[j].skill)))
  }

  /**
   * Resources go to the plan's first three skills, in order; a catalogued skill gets its
   * catalogue entry and any other skill the general default.
   */
  lemma LearningResourcesSpec(plan: seq<Development>, catalogue: Dict<seq<string>>)
    ensures var r := LearningResources(plan, catalogue);
      |r| == Min(3, |plan|)
      && forall j :: 0 <= j < |r| ==>
           r[j].skill == plan[j].skill
           && (plan[j].skill !in Keys(catalogue) ==> r[j].resources == DefaultResources)
           && (plan[j].skill in Keys(catalogue) ==> Some(r[j].resources) == Get(catalogue, plan[j].skill))
  {
    var r := LearningResources(plan, catalogue);
    forall j | 0 <= j < |r|
      ensures plan[j].skill !in Keys(catalogue) ==> r[j].resources == DefaultResources
      ensures plan[j].skill in Keys(catalogue) ==> Some(r[j].resources) == Get(catalogue, plan[j].skill)
    {
      GetNone(catalogue, plan[j].skill);
    }
  }

  const NextSteps: seq<string> := [
    "Review your assessment results and identify top 3 skills to develop",
    "Create a learning plan for your priority skills",
    "Start with beginner-level courses for your weakest areas",
    "Practice skills through hands-on projects",
    "Consider getting certified in your strongest areas"
  ]

  datatype Recommendations = Recommendations(
    development: seq<Development>,
    careerPaths: seq<string>,
    resources: seq<LearningResource>,
    nextSteps: seq<string>,
    coachingTips: Option<seq<string>>)

  /**
   * `_generate_recommendations`, with the coach model's tips: `tips` stands for the
   * non-blank tip lines of its reply (empty when it is unavailable or says nothing).
   */
  function RecommendationsOf(final: Dict<real>, catalogue: Dict<seq<string>>, tips: seq<string>): (r: Recommendations)
  {
    var plan := DevelopmentPlan(final);
    Recommendations(plan, CareerPaths(Strong(final)), LearningResources(plan, catalogue), NextSteps,
                    if |tips| > 0 then Some(Take(tips, 5)) else None)
  }

  /** Coaching tips appear exactly when the model gave some, at most five, from its first. */
  lemma CoachingTipsSpec(final: Dict<real>, catalogue: Dict<seq<string>>, tips: seq<string>)
    ensures var r := RecommendationsOf(final, catalogue, tips);
      (r.coachingTips.Some? <==> |tips| > 0)
      && (r.coachingTips.Some? ==> |r.coachingTips.value| == Min(5, |tips|) && r.coachingTips.value <= tips)
      && |r.nextSteps| == 5 && |r.resources| <= 3
  {
  }

  // ---------------------------------------------------------------------------------------
  // The report and the saved assessments
  // ---------------------------------------------------------------------------------------

  datatype Report = Report(
    overall: real,
    categories: seq<CategoryResult>,
    strengths: seq<string>,
    weaknesses: seq<string>,
    durationMinutes: int,
    answered: nat,
    date: int)

  /** `_generate_assessment_report` for a session that ended at `endTime`. */
  function ReportOf(cats: seq<Category>, final: Dict<real>, s: Session, endTime: int): Report
  {
    var cs := CategoryResults(cats, final);
    Report(Overall(cs), cs, Strengths(final), Weaknesses(final), DurationMinutes(s.startTime, endTime),
           |s.responses|, endTime)
  }

  /**
   * With valid categories and final scores in [0, 100] under distinct skills, every
   * category average and the overall score are in [0, 100], and there are at most five
   * strengths and five weaknesses, none of them both.
   */
  lemma ReportBounds(cats: seq<Category>, final: Dict<real>, s: Session, endTime: int)
    requires ValidCategories(cats) && Within(final, 0.0, 100.0) && DistinctKeys(final)
    ensures var r := ReportOf(cats, final, s, endTime);
      0.0 <= r.overall <= 100.0
      && (forall c :: 0 <= c < |r.categories| ==> 0.0 <= r.categories[c].average <= 100.0)
      && |r.strengths| <= 5 && |r.weaknesses| <= 5
      && (forall k :: k in r.strengths ==> k !in r.weaknesses)
  {
    var cs := CategoryResults(cats, final);
    forall c | 0 <= c < |cs|
      ensures 0.0 <= cs[c].average <= 100.0
    {
      CategoryAverageBounds(cats[c], final);
    }
    OverallBounds(cs);
    TopFiveSpec(final, AtLeast(70.0), ("", 0.0));
    TopFiveSpec(final, Below(40.0), ("", 0.0));
    forall k | k in Strengths(final)
      ensures k !in Weaknesses(final)
    {
      StrengthsWeaknessesDisjoint(final, k);
    }
  }

  /** A row of the saved assessments. */
  datatype SavedAssessment = SavedAssessment(
    userId: string, assessmentId: string, startTime: int, endTime: int, finalScores: Dict<real>, report: Report)

  function ForUser(userId: string): SavedAssessment -> bool
  {
    (e: SavedAssessment) => e.userId == userId
  }

  /** `get_assessment_history`: the user's saved assessments, newest first. */
  function History(saved: seq<SavedAssessment>, userId: string): seq<SavedAssessment>
  {
    Reverse(Filter(saved, ForUser(userId)))
  }

  /** The history holds exactly the user's rows, and the newest row saved comes first. */
  lemma HistorySpec(saved: seq<SavedAssessment>, userId: string, row: SavedAssessment)
    ensures forall x :: x in History(saved, userId) <==> x in saved && x.userId == userId
    ensures row.userId == userId ==> History(saved + [row], userId)[0] == row
    ensures row.userId != userId ==> History(saved + [row], userId) == History(saved, userId)
  {
    var h := History(saved, userId);
    var f := Filter(saved, ForUser(userId));
    FilterMembers(saved, ForUser(userId));
    forall x
      ensures x in h <==> x in f
    {
      if x in f {
        var i :| 0 <= i < |f| && f[i] == x;
        assert h[|f| - 1 - i] == x;
      }
    }
    assert (saved + [row])[..|saved|] == saved;
  }

  // ---------------------------------------------------------------------------------------
  // Insights: the newest assessment against the one before
  // ---------------------------------------------------------------------------------------

  datatype Trend = Improving | Declining | Stable

  datatype SkillProgress = SkillProgress(skill: string, previous: real, current: real, improvement: real, trend: Trend)

  /** A skill's change from the previous score to the current one, and the sign of the change. */
  function Compare(skill: string, previous: real, current: real): (p: SkillProgress)
    ensures p.improvement == current - previous
    ensures p.trend == Improving <==> current > previous
    ensures p.trend == Declining <==> current < previous
  {
    var d := current - previous;
    SkillProgress(skill, previous, current, d, if d > 0.0 then Improving else if d < 0.0 then Declining else Stable)
  }

  /** One comparison per skill of the newest scores that the previous scores also have. */
  function ProgressEntries(latest: Dict<real>, previous: Dict<real>): seq<SkillProgress>
  {
    if |latest| == 0 then []
    else
      var e := latest[|latest| - 1];
      ProgressEntries(latest[..|latest| - 1], previous)
      + (if e.0 in Keys(previous) then [Compare(e.0, GetOr<real>(previous, e.0, 0.0), e.1)] else [])
  }

  function SkillsOf(ps: seq<SkillProgress>): (r: seq<string>)
    ensures |r| == |ps|
  {
    seq(|ps|, j requires 0 <= j < |ps| => ps[j].skill)
  }

  function Improved(p: SkillProgress): bool
  {
    p.improvement > 10.0
  }

  function Maintained(p: SkillProgress): bool
  {
    !Improved(p) && p.current >= 70.0
  }

  datatype SkillInsights =
    | NoHistory
    | SkillInsights(latest: SavedAssessment, progress: seq<SkillProgress>, improvementAreas: seq<string>,
                    strengthsMaintained: seq<string>)

  /** `get_skill_insights` on a history, newest first. */
  function InsightsOf(h: seq<SavedAssessment>): SkillInsights
  {
    if |h| == 0 then NoHistory
    else if |h| == 1 then SkillInsights(h[0], [], [], [])
    else
      var ps := ProgressEntries(h[0].finalScores, h[1].finalScores);
      SkillInsights(h[0], ps, SkillsOf(Filter(ps, Improved)), SkillsOf(Filter(ps, Maintained)))
  }

  /**
   * The comparisons cover exactly the newest skills that the previous assessment also
   * scored, in the newest assessment's order, each with its previous score.
   */
  lemma {:induction false} ProgressEntriesSpec(latest: Dict<real>, previous: Dict<real>)
    ensures SkillsOf(ProgressEntries(latest, previous)) == Filter(Keys(latest), Scored(previous))
    ensures var ps := ProgressEntries(latest, previous);
      forall j :: 0 <= j < |ps| ==>
        (ps[j].skill, ps[j].current) in latest && ps[j].previous == GetOr<real>(previous, ps[j].skill, 0.0)
    decreases |latest|
  {
    if |latest| > 0 {
      var init, e := latest[..|latest| - 1], latest[|latest| - 1];
      ProgressEntriesSpec(init, previous);
      ProgressEntriesStep(latest, previous);
    }
  }

  lemma ProgressEntriesStep(latest: Dict<real>, previous: Dict<real>)
    requires |latest| > 0
    requires var init := latest[..|latest| - 1];
      SkillsOf(ProgressEntries(init, previous)) == Filter(Keys(init), Scored(previous))
      && var ps := ProgressEntries(init, previous);
      forall j :: 0 <= j < |ps| ==>
        (ps[j].skill, ps[j].current) in init && ps[j].previous == GetOr<real>(previous, ps[j].skill, 0.0)
    ensures SkillsOf(ProgressEntries(latest, previous)) == Filter(Keys(latest), Scored(previous))
    ensures var ps := ProgressEntries(latest, previous);
      forall j :: 0 <= j < |ps| ==>
        (ps[j].skill, ps[j].current) in latest && ps[j].previous == GetOr<real>(previous, ps[j].skill, 0.0)
  {
    var init, e := latest[..|latest| - 1], latest[|latest| - 1];
    var prev := ProgressEntries(init, previous);
    var tail := if e.0 in Keys(previous) then [Compare(e.0, GetOr<real>(previous, e.0, 0.0), e.1)] else [];
    assert ProgressEntries(latest, previous) == prev + tail;
    assert SkillsOf(prev + tail) == SkillsOf(prev) + SkillsOf(tail);
    assert Keys(latest) == Keys(init) + [e.0];
    assert Keys(latest)[..|latest| - 1] == Keys(init);
    assert forall x :: x in init ==> x in latest;
  }

  /**
   * On a history of two or more, a skill never counts both as an improvement area and as a
   * strength maintained; improvement areas are the skills that gained more than 10 points,
   * and a strength maintained gained at most 10 and scores at least 70.
   */
  lemma InsightsSpec(h: seq<SavedAssessment>)
    requires |h| >= 2 && DistinctKeys(h[0].finalScores)
    ensures var r := InsightsOf(h);
      r.SkillInsights? && r.latest == h[0]
      && (forall k :: k in r.improvementAreas ==> k !in r.strengthsMaintained)
      && (forall k :: k in r.improvementAreas <==> exists p :: p in r.progress && p.skill == k && Improved(p))
      && (forall k :: k in r.strengthsMaintained <==> exists p :: p in r.progress && p.skill == k && Maintained(p))
  {
    var ps := ProgressEntries(h[0].finalScores, h[1].finalScores);
    ProgressEntriesSpec(h[0].finalScores, h[1].finalScores);
    FilterDistinct(Keys(h[0].finalScores), Scored(h[1].finalScores));
    FilterMembers(ps, Improved);
    FilterMembers(ps, Maintained);
    SkillsOfMembers(Filter(ps, Improved));
    SkillsOfMembers(Filter(ps, Maintained));
    ImprovedApartFromMaintained(ps);
  }

  /** Among comparisons of distinct skills, no skill is both improved and maintained. */
  lemma ImprovedApartFromMaintained(ps: seq<SkillProgress>)
    requires Distinct(SkillsOf(ps))
    ensures forall k :: k in SkillsOf(Filter(ps, Improved)) ==> k !in SkillsOf(Filter(ps, Maintained))
  {
    var up, kept := Filter(ps, Improved), Filter(ps, Maintained);
    FilterMembers(ps, Improved);
    FilterMembers(ps, Maintained);
    SkillsOfMembers(up);
    SkillsOfMembers(kept);
    forall k | k in SkillsOf(up)
      ensures k !in SkillsOf(kept)
    {
      var p :| p in up && p.skill == k;
      var i :| 0 <= i < |ps| && ps[i] == p;
      forall q | q in kept
        ensures q.skill != k
      {
        var j :| 0 <= j < |ps| && ps[j] == q;
        assert i != j;
        assert SkillsOf(ps)[i] != SkillsOf(ps)[j];
      }
    }
  }

  lemma SkillsOfMembers(ps: seq<SkillProgress>)
    ensures forall k :: k in SkillsOf(ps) <==> exists p :: p in ps && p.skill == k
  {
    forall k | k in SkillsOf(ps)
      ensures exists p :: p in ps && p.skill == k
    {
      var i :| 0 <= i < |ps| && SkillsOf(ps)[i] == k;
      assert ps[i] in ps;
    }
    forall k | exists p :: p in ps && p.skill == k
      ensures k in SkillsOf(ps)
    {
      var p :| p in ps && p.skill == k;
      var i :| 0 <= i < |ps| && ps[i] == p;
      assert SkillsOf(ps)[i] == k;
    }
  }
}
