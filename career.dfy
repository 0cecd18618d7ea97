/**
 * The career recommender: the career table (database rows merged with the comprehensive
 * records), the compatibility score of each career (skill match, interest alignment and a
 * perturbed market score), the top five, the explanation of a recommendation, the summary
 * over all careers, the skill roadmap over the top careers and the market-demand tiers.
 */
module Career {
  import opened Common
  import opened Text

  /** The extra fields of a comprehensive record. */
  datatype Profile = Profile(entryLevel: string, seniorLevel: string, leadershipPath: string,
                             alternativeRoles: seq<string>, certifications: seq<string>)

  /** A career record; a database row has no profile. */
  datatype CareerData = CareerData(title: string, industry: string, requiredSkills: seq<string>,
                                   salaryRange: string, growthRate: real, description: string,
                                   profile: Option<Profile>)

  type CareerDb = Dict<CareerData>

  // ---------------------------------------------------------------------------------------
  // Merging the comprehensive records into the table
  // ---------------------------------------------------------------------------------------

  /**
   * The table after `_add_comprehensive_career_data`: each comprehensive record, in order,
   * updates the record of its title or is added at the end. Every comprehensive record
   * carries all the fields of a database row, so the update replaces the record.
   */
  function Merged(db: CareerDb, extra: Dict<CareerData>): CareerDb
    decreases |extra|
  {
    if |extra| == 0 then db
    else
      var last := extra[|extra| - 1];
      Put(Merged(db, extra[..|extra| - 1]), last.0, last.1)
  }

  /**
   * After the merge a title reads as its comprehensive record when it has one and as its
   * database row otherwise; the existing titles keep their order and new titles follow.
   */
  lemma {:induction false} MergedSpec(db: CareerDb, extra: Dict<CareerData>, k: string)
    requires DistinctKeys(extra)
    ensures Get(Merged(db, extra), k) == if k in Keys(extra) then Get(extra, k) else Get(db, k)
    ensures Keys(db) <= Keys(Merged(db, extra))
    ensures k in Keys(Merged(db, extra)) <==> k in Keys(db) || k in Keys(extra)
    decreases |extra|
  {
    if |extra| > 0 {
      var init, last := extra[..|extra| - 1], extra[|extra| - 1];
      assert extra == init + [last];
      assert Keys(extra) == Keys(init) + [last.0];
      assert DistinctKeys(init) by {
        assert forall i :: 0 <= i < |init| ==> Keys(init)[i] == Keys(extra)[i];
      }
      assert last.0 !in Keys(init) by {
        forall i | 0 <= i < |init| ensures Keys(init)[i] != last.0 {
          assert Keys(init)[i] == Keys(extra)[i];
          assert Keys(extra)[|extra| - 1] == last.0;
        }
      }
      MergedSpec(db, init, k);
      var m := Merged(db, init);
      PutGet(m, last.0, last.1, k);
      PutKeys(m, last.0, last.1);
      GetSnoc(init, last.0, last.1, k);
    }
  }

  /** The recommender with its career table. */
  class Recommender {
    var database: CareerDb

    constructor (rows: CareerDb)
      ensures database == rows
    {
      database := rows;
    }

    /** `_add_comprehensive_career_data`: merges the records one by one into the table. */
    method AddComprehensiveCareerData(extra: Dict<CareerData>)
      modifies this
      ensures database == Merged(old(database), extra)
    {
      var k := 0;
      while k < |extra|
        invariant 0 <= k <= |extra|
        invariant database == Merged(old(database), extra[..k])
      {
        var (title, data) := extra[k];
        assert extra[..k + 1][..k] == extra[..k];
        database := Put(database, title, data);
        k := k + 1;
      }
      assert extra[..|extra|] == extra;
    }
  }

  // ---------------------------------------------------------------------------------------
  // Compatibility scores
  // ---------------------------------------------------------------------------------------

  /** The user's skills that the career requires (counted once per listing of the user). */
  function SkillMatches(skills: seq<string>, required: seq<string>): nat
  {
    |Filter(skills, In(required))|
  }

  /** `matches / len(required) * 100`, or 0 when nothing is required. */
  function SkillScore(skills: seq<string>, required: seq<string>): real
  {
    Percent(SkillMatches(skills, required), |required|)
  }

  /** A list of distinct skills matches at most every required skill: the score is a percentage. */
  lemma SkillScoreBounds(skills: seq<string>, required: seq<string>)
    requires Distinct(skills)
    ensures SkillMatches(skills, required) <= |required|
    ensures 0.0 <= SkillScore(skills, required) <= 100.0
    ensures |required| > 0 && (forall r :: r in required ==> r in skills) && Distinct(required)
            ==> SkillScore(skills, required) == 100.0
  {
    var f := Filter(skills, In(required));
    FilterDistinct(skills, In(required));
    FilterMembers(skills, In(required));
    DistinctWithinLength(f, required);
    if |required| > 0 && (forall r :: r in required ==> r in skills) && Distinct(required) {
      DistinctWithinLength(required, f);
    }
  }

  /** The required skills the user lacks, in the career's order. */
  function MissingSkills(skills: seq<string>, required: seq<string>): (r: seq<string>)
  {
    Filter(required, NotIn(skills))
  }

  lemma MissingSkillsSpec(skills: seq<string>, required: seq<string>)
    ensures forall x :: x in MissingSkills(skills, required) <==> x in required && x !in skills
    ensures |MissingSkills(skills, required)| <= |required|
  {
    FilterMembers(required, NotIn(skills));
  }

  /** The interest keywords of each industry; other industries have none. */
  const IndustryKeywords: Dict<seq<string>> := [
    ("Technology", ["technology", "programming", "software", "ai", "data", "tech"]),
    ("Healthcare", ["healthcare", "health", "medical", "science", "research"]),
    ("Finance", ["finance", "banking", "business", "economics", "money"]),
    ("Education", ["education", "teaching", "learning", "academic", "research"])
  ]

  /** An interest mentions a keyword when, ignoring ASCII case, it contains it. */
  predicate Mentions(interest: string, keyword: string)
  {
    Contains(Lower(interest), Lower(keyword))
  }

  function MentionsAny(keywords: seq<string>): string -> bool
  {
    (interest: string) => exists k :: 0 <= k < |keywords| && Mentions(interest, keywords[k])
  }

  /**
   * `_calculate_interest_alignment`: 50 without interests, else the share of interests that
   * mention one of the industry's keywords, as a percentage.
   */
  function InterestAlignment(industry: string, interests: seq<string>): real
  {
    if |interests| == 0 then 50.0
    else
      var keywords := GetOr<seq<string>>(IndustryKeywords, industry, []);
      Percent(|Filter(interests, MentionsAny(keywords))|, |interests|)
  }

  /** Each interest counts once, at its first matching keyword. */
  method CalculateInterestAlignment(industry: string, interests: seq<string>) returns (r: real)
    ensures r == InterestAlignment(industry, interests)
  {
    if |interests| == 0 {
      return 50.0;
    }
    var keywords := GetOr<seq<string>>(IndustryKeywords, industry, []);
    var matches := 0;
    var i := 0;
    while i < |interests|
      invariant 0 <= i <= |interests|
      invariant matches == |Filter(interests[..i], MentionsAny(keywords))|
    {
      var j := 0;
      var found := false;
      while j < |keywords| && !found
        invariant 0 <= j <= |keywords|
        invariant found <==> exists k :: 0 <= k < j && Mentions(interests[i], keywords[k])
      {
        if Mentions(interests[i], keywords[j]) {
          found := true;
        }
        j := j + 1;
      }
      assert found <==> MentionsAny(keywords)(interests[i]);
      assert interests[..i + 1][..i] == interests[..i];
      if found {
        matches := matches + 1;
      }
      i := i + 1;
    }
    assert interests[..|interests|] == interests;
    r := Percent(matches, |interests|);
  }

  /** The alignment is a percentage; an industry without keywords aligns with no interest. */
  lemma InterestAlignmentBounds(industry: string, interests: seq<string>)
    ensures 0.0 <= InterestAlignment(industry, interests) <= 100.0
    ensures |interests| > 0 && industry !in Keys(IndustryKeywords) ==> InterestAlignment(industry, interests) == 0.0
  {
    var keywords := GetOr<seq<string>>(IndustryKeywords, industry, []);
    if |interests| > 0 {
      if industry !in Keys(IndustryKeywords) {
        GetNone(IndustryKeywords, industry);
        FilterNone(interests, MentionsAny(keywords));
      }
    }
  }

  /**
   * `_calculate_market_score`: five points per percent of growth, at most 100, plus the
   * random perturbation `noise`, clamped to [0, 100].
   */
  function MarketScore(growthRate: real, noise: real): (r: real)
    ensures 0.0 <= r <= 100.0
    ensures var v := MinReal(growthRate * 5.0, 100.0) + noise; 0.0 <= v <= 100.0 ==> r == v
    ensures r == 0.0 ==> MinReal(growthRate * 5.0, 100.0) + noise <= 0.0
    ensures r == 100.0 ==> MinReal(growthRate * 5.0, 100.0) + noise >= 100.0
  {
    MaxReal(0.0, MinReal(100.0, MinReal(growthRate * 5.0, 100.0) + noise))
  }

  datatype CareerScore = CareerScore(score: real, skillScore: real, interestScore: real, marketScore: real,
                                     skillMatches: nat, totalRequired: nat, missingSkills: seq<string>)

  /** The weighted total: half skill, three tenths interest, one fifth market. */
  function Total(skill: real, interest: real, market: real): real
  {
    skill * 0.5 + interest * 0.3 + market * 0.2
  }

  function ScoreCareer(c: CareerData, skills: seq<string>, interests: seq<string>, noise: real): CareerScore
  {
    var skill := SkillScore(skills, c.requiredSkills);
    var interest := InterestAlignment(c.industry, interests);
    var market := MarketScore(c.growthRate, noise);
    CareerScore(Total(skill, interest, market), skill, interest, market,
                SkillMatches(skills, c.requiredSkills), |c.requiredSkills|, MissingSkills(skills, c.requiredSkills))
  }

  /** With distinct skills every part and the total are percentages. */
  lemma ScoreCareerBounds(c: CareerData, skills: seq<string>, interests: seq<string>, noise: real)
    requires Distinct(skills)
    ensures var s := ScoreCareer(c, skills, interests, noise);
      0.0 <= s.skillScore <= 100.0 && 0.0 <= s.interestScore <= 100.0 && 0.0 <= s.marketScore <= 100.0
      && 0.0 <= s.score <= 100.0 && s.skillMatches <= s.totalRequired
  {
    SkillScoreBounds(skills, c.requiredSkills);
    InterestAlignmentBounds(c.industry, interests);
  }

  /** The score of every career in table order; `noise[i]` is the draw for the `i`-th career. */
  function CareerScores(db: CareerDb, skills: seq<string>, interests: seq<string>, noise: seq<real>)
    : (r: Dict<CareerScore>)
    requires |noise| == |db|
    ensures Keys(r) == Keys(db)
  {
    seq(|db|, i requires 0 <= i < |db| => (db[i].0, ScoreCareer(db[i].1, skills, interests, noise[i])))
  }

  /** `_calculate_career_scores`: one scoring pass over the table. */
  method CalculateCareerScores(db: CareerDb, skills: seq<string>, interests: seq<string>, noise: seq<real>)
    returns (r: Dict<CareerScore>)
    requires |noise| == |db|
    ensures r == CareerScores(db, skills, interests, noise)
  {
    r := [];
    var k := 0;
    while k < |db|
      invariant 0 <= k <= |db|
      invariant |r| == k
      invariant forall j :: 0 <= j < k ==> r[j] == CareerScores(db, skills, interests, noise)[j]
    {
      var (title, data) := db[k];
      var interest := CalculateInterestAlignment(data.industry, interests);
      var skill := SkillScore(skills, data.requiredSkills);
      var market := MarketScore(data.growthRate, noise[k]);
      r := r + [(title, CareerScore(Total(skill, interest, market), skill, interest, market,
                                    SkillMatches(skills, data.requiredSkills), |data.requiredSkills|,
                                    MissingSkills(skills, data.requiredSkills)))];
      k := k + 1;
    }
  }

  /** Every score in the table is a percentage when the skills are distinct. */
  lemma CareerScoresBounds(db: CareerDb, skills: seq<string>, interests: seq<string>, noise: seq<real>)
    requires |noise| == |db| && Distinct(skills)
    ensures forall i :: 0 <= i < |db| ==> 0.0 <= CareerScores(db, skills, interests, noise)[i].1.score <= 100.0
  {
    forall i | 0 <= i < |db|
      ensures 0.0 <= CareerScores(db, skills, interests, noise)[i].1.score <= 100.0
    {
      ScoreCareerBounds(db[i].1, skills, interests, noise[i]);
    }
  }

  // ---------------------------------------------------------------------------------------
  // The top five
  // ---------------------------------------------------------------------------------------

  function ByScore(): ((string, CareerScore)) -> real
  {
    (e: (string, CareerScore)) => e.1.score
  }

  /** `sorted(scores.items(), key=score, reverse=True)[:5]`. */
  function TopCareers(scores: Dict<CareerScore>): seq<(string, CareerScore)>
  {
    Take(SortDesc(scores, ByScore()), 5)
  }

  /**
   * The top careers are at most five scored careers in descending order, and a career left
   * out scores no higher than any of the five chosen.
   */
  lemma TopCareersSpec(scores: Dict<CareerScore>, e: (string, CareerScore))
    ensures var top := TopCareers(scores);
      |top| == Min(5, |scores|)
      && SortedDesc(top, ByScore())
      && (forall x :: x in top ==> x in scores)
      && (e in scores && e !in top ==> |top| == 5 && forall i :: 0 <= i < 5 ==> top[i].1.score >= e.1.score)
  {
    var sorted := SortDesc(scores, ByScore());
    var top := TopCareers(scores);
    assert forall i :: 0 <= i < |top| ==> top[i] == sorted[i];
    forall x | x in top ensures x in scores {
      assert x in multiset(sorted);
    }
    if e in scores && e !in top {
      assert e in multiset(scores);
      TakeTop(sorted, ByScore(), 5, e);
    }
  }

  // ---------------------------------------------------------------------------------------
  // Why a career is recommended
  // ---------------------------------------------------------------------------------------

  datatype Reason = StrongSkills | GoodFoundation | MatchesInterests | HighGrowth | StableGrowth | GoodPotential

  function Phrase(r: Reason): (p: string)
    ensures |p| > 0
  {
    match r
    case StrongSkills => "Strong skill alignment"
    case GoodFoundation => "Good skill foundation"
    case MatchesInterests => "Matches your interests"
    case HighGrowth => "High growth industry"
    case StableGrowth => "Stable growth prospects"
    case GoodPotential => "Good potential with skill development"
  }

  /** The reasons that hold, in the order they are considered, or the fallback reason when none does. */
  function ReasonsOf(strong: bool, good: bool, interest: bool, high: bool, stable: bool): (r: seq<Reason>)
    ensures |r| >= 1
  {
    var all := When(strong, StrongSkills) + When(good, GoodFoundation) + When(interest, MatchesInterests)
               + When(high, HighGrowth) + When(stable, StableGrowth);
    if |all| == 0 then [GoodPotential] else all
  }

  /** The reasons behind a recommendation: each `elif` chain becomes two exclusive tests. */
  function Reasons(s: CareerScore, growthRate: real): (r: seq<Reason>)
    ensures |r| >= 1
  {
    ReasonsOf(s.skillScore > 70.0, 40.0 < s.skillScore <= 70.0, s.interestScore > 70.0,
              growthRate > 10.0, 5.0 < growthRate <= 10.0)
  }

  /** Each reason is listed exactly when its test holds, and the fallback exactly when none does. */
  lemma ReasonsOfSpec(strong: bool, good: bool, interest: bool, high: bool, stable: bool)
    ensures var r := ReasonsOf(strong, good, interest, high, stable);
      (StrongSkills in r <==> strong) && (GoodFoundation in r <==> good) && (MatchesInterests in r <==> interest)
      && (HighGrowth in r <==> high) && (StableGrowth in r <==> stable)
      && (GoodPotential in r <==> !strong && !good && !interest && !high && !stable)
  {
    var w1, w2, w3 := When(strong, StrongSkills), When(good, GoodFoundation), When(interest, MatchesInterests);
    var w4, w5 := When(high, HighGrowth), When(stable, StableGrowth);
    var all := w1 + w2 + w3 + w4 + w5;
    assert |all| == |w1| + |w2| + |w3| + |w4| + |w5|;
    InFive(w1, w2, w3, w4, w5, StrongSkills);
    InFive(w1, w2, w3, w4, w5, GoodFoundation);
    InFive(w1, w2, w3, w4, w5, MatchesInterests);
    InFive(w1, w2, w3, w4, w5, HighGrowth);
    InFive(w1, w2, w3, w4, w5, StableGrowth);
    InFive(w1, w2, w3, w4, w5, GoodPotential);
  }

  function Phrases(rs: seq<Reason>): (ps: seq<string>)
    ensures |ps| == |rs|
  {
    seq(|rs|, i requires 0 <= i < |rs| => Phrase(rs[i]))
  }

  /** `_generate_recommendation_reason`: the reasons' phrases joined by "; ". */
  function RecommendationReason(s: CareerScore, growthRate: real): string
  {
    Join(Phrases(Reasons(s, growthRate)), "; ")
  }

  /**
   * The explanation is never empty; each reason is given exactly when its threshold is
   * passed, and the fallback reason exactly when none is.
   */
  lemma RecommendationReasonSpec(s: CareerScore, growthRate: real)
    ensures |RecommendationReason(s, growthRate)| > 0
    ensures var r := Reasons(s, growthRate);
      (StrongSkills in r <==> s.skillScore > 70.0)
      && (GoodFoundation in r <==> 40.0 < s.skillScore <= 70.0)
      && (MatchesInterests in r <==> s.interestScore > 70.0)
      && (HighGrowth in r <==> growthRate > 10.0)
      && (StableGrowth in r <==> 5.0 < growthRate <= 10.0)
      && (GoodPotential in r <==> (s.skillScore <= 40.0 && s.interestScore <= 70.0 && growthRate <= 5.0))
  {
    var ps := Phrases(Reasons(s, growthRate));
    JoinEndsWithLast(ps, "; ");
    ReasonsOfSpec(s.skillScore > 70.0, 40.0 < s.skillScore <= 70.0, s.interestScore > 70.0,
                  growthRate > 10.0, 5.0 < growthRate <= 10.0);
  }

  // ---------------------------------------------------------------------------------------
  // Summary over all careers
  // ---------------------------------------------------------------------------------------

  datatype CompatibilitySummary = CompatibilitySummary(average: real, highest: real, above70: nat,
                                                       totalAnalyzed: nat, focusOnTopThree: bool)

  function ScoresOf(scores: Dict<CareerScore>): (r: seq<real>)
    ensures |r| == |scores|
  {
    seq(|scores|, i requires 0 <= i < |scores| => scores[i].1.score)
  }

  function Above70(): real -> bool
  {
    (x: real) => x > 70.0
  }

  /**
   * `_generate_compatibility_summary`: none without careers; otherwise the mean, the maximum,
   * the number above 70, the number of careers, and whether the maximum is above 60.
   */
  function Summary(scores: Dict<CareerScore>): (r: Option<CompatibilitySummary>)
  {
    if |scores| == 0 then None
    else
      var xs := ScoresOf(scores);
      var top := MaxOf(xs);
      Some(CompatibilitySummary(Mean(xs), top, |Filter(xs, Above70())|, |xs|, top > 60.0))
  }

  lemma SummarySpec(scores: Dict<CareerScore>)
    ensures Summary(scores).None? <==> |scores| == 0
    ensures var r := Summary(scores);
      r.Some? ==> r.value.average <= r.value.highest
                  && r.value.above70 <= r.value.totalAnalyzed == |scores|
                  && (forall i :: 0 <= i < |scores| ==> scores[i].1.score <= r.value.highest)
                  && (r.value.above70 > 0 ==> r.value.focusOnTopThree)
  {
    if |scores| > 0 {
      var xs := ScoresOf(scores);
      MeanAtMostMax(xs);
      assert forall i :: 0 <= i < |scores| ==> scores[i].1.score == xs[i];
      AboveImpliesMax(xs);
    }
  }

  /** When some score is above 70, so is the maximum, which is then above 60. */
  lemma AboveImpliesMax(xs: seq<real>)
    requires |xs| > 0
    ensures |Filter(xs, Above70())| > 0 ==> MaxOf(xs) > 60.0
  {
    var f := Filter(xs, Above70());
    if |f| > 0 {
      FilterMembers(xs, Above70());
      assert f[0] in f;
      var i :| 0 <= i < |xs| && xs[i] == f[0];
      assert xs[i] > 70.0;
    }
  }

  // ---------------------------------------------------------------------------------------
  // Skill roadmap
  // ---------------------------------------------------------------------------------------

  type SkillGroups = Dict<seq<string>>

  /** Appends `title` to the list of each skill in `missing`, opening a list where needed. */
  function AddCareer(g: SkillGroups, title: string, missing: seq<string>): SkillGroups
    decreases |missing|
  {
    if |missing| == 0 then g
    else
      var h := AddCareer(g, title, missing[..|missing| - 1]);
      var skill := missing[|missing| - 1];
      Put(h, skill, GetOr<seq<string>>(h, skill, []) + [title])
  }

  /** `all_missing_skills`: each missing skill of the top careers with the careers needing it. */
  function MissingGroups(top: seq<(string, CareerScore)>): SkillGroups
    decreases |top|
  {
    if |top| == 0 then []
    else
      var last := top[|top| - 1];
      AddCareer(MissingGroups(top[..|top| - 1]), last.0, last.1.missingSkills)
  }

  method CollectMissingSkills(top: seq<(string, CareerScore)>) returns (g: SkillGroups)
    ensures g == MissingGroups(top)
  {
    g := [];
    var c := 0;
    while c < |top|
      invariant 0 <= c <= |top|
      invariant g == MissingGroups(top[..c])
    {
      var (title, score) := top[c];
      var missing := score.missingSkills;
      ghost var g0 := g;
      var k := 0;
      while k < |missing|
        invariant 0 <= k <= |missing|
        invariant g == AddCareer(g0, title, missing[..k])
      {
        var skill := missing[k];
        assert missing[..k + 1][..k] == missing[..k];
        g := Put(g, skill, GetOr<seq<string>>(g, skill, []) + [title]);
        k := k + 1;
      }
      assert missing[..|missing|] == missing;
      assert top[..c + 1][..c] == top[..c];
      c := c + 1;
    }
    assert top[..|top|] == top;
  }

  /** Adding one career: a skill is listed iff it was or is missing, and the career joins exactly its missing skills. */
  lemma {:induction false} AddCareerSpec(g: SkillGroups, title: string, missing: seq<string>, skill: string, t: string)
    ensures skill in Keys(AddCareer(g, title, missing)) <==> skill in Keys(g) || skill in missing
    ensures t in GetOr<seq<string>>(AddCareer(g, title, missing), skill, [])
            <==> t in GetOr<seq<string>>(g, skill, []) || (t == title && skill in missing)
    decreases |missing|
  {
    if |missing| > 0 {
      var init := missing[..|missing| - 1];
      var h := AddCareer(g, title, init);
      var s := missing[|missing| - 1];
      AddCareerSpec(g, title, init, skill, t);
      assert missing == init + [s];
      PutKeys(h, s, GetOr<seq<string>>(h, s, []) + [title]);
      PutGet(h, s, GetOr<seq<string>>(h, s, []) + [title], skill);
    }
  }

  /**
   * A skill is in the roadmap's groups exactly when some top career misses it, and its list
   * holds exactly the careers that miss it.
   */
  lemma {:induction false} MissingGroupsSpec(top: seq<(string, CareerScore)>, skill: string, t: string)
    ensures skill in Keys(MissingGroups(top)) <==> exists i :: 0 <= i < |top| && skill in top[i].1.missingSkills
    ensures t in GetOr<seq<string>>(MissingGroups(top), skill, [])
            <==> exists i :: 0 <= i < |top| && top[i].0 == t && skill in top[i].1.missingSkills
    decreases |top|
  {
    if |top| == 0 {
      assert GetOr<seq<string>>([], skill, []) == [];
    } else {
      var init, last := top[..|top| - 1], top[|top| - 1];
      MissingGroupsSpec(init, skill, t);
      AddCareerSpec(MissingGroups(init), last.0, last.1.missingSkills, skill, t);
      assert forall i :: 0 <= i < |init| ==> init[i] == top[i];
    }
  }

  function ByNeed(): ((string, seq<string>)) -> real
  {
    (e: (string, seq<string>)) => |e.1| as real
  }

  /** The twelve most needed skills, by number of careers needing them, ties in first-seen order. */
  function Prioritised(top: seq<(string, CareerScore)>): seq<(string, seq<string>)>
  {
    Take(SortDesc(MissingGroups(top), ByNeed()), 12)
  }

  datatype Roadmap =
    | NoRecommendations
    | Roadmap(immediate: SkillGroups, shortTerm: SkillGroups, mediumTerm: SkillGroups, longTerm: SkillGroups,
              phase1: seq<string>, phase2: seq<string>, phase3: seq<string>)

  /** Needed by at least three careers: learn now; by two: short term; otherwise medium term. */
  method Bucket(ranked: seq<(string, seq<string>)>) returns (immediate: SkillGroups, shortTerm: SkillGroups,
                                                            mediumTerm: SkillGroups)
    ensures immediate == Filter(ranked, (e: (string, seq<string>)) => |e.1| >= 3)
    ensures shortTerm == Filter(ranked, (e: (string, seq<string>)) => |e.1| == 2)
    ensures mediumTerm == Filter(ranked, (e: (string, seq<string>)) => |e.1| < 2)
    ensures |immediate| + |shortTerm| + |mediumTerm| == |ranked|
  {
    immediate, shortTerm, mediumTerm := [], [], [];
    var k := 0;
    while k < |ranked|
      invariant 0 <= k <= |ranked|
      invariant immediate == Filter(ranked[..k], (e: (string, seq<string>)) => |e.1| >= 3)
      invariant shortTerm == Filter(ranked[..k], (e: (string, seq<string>)) => |e.1| == 2)
      invariant mediumTerm == Filter(ranked[..k], (e: (string, seq<string>)) => |e.1| < 2)
      invariant |immediate| + |shortTerm| + |mediumTerm| == k
    {
      assert ranked[..k + 1][..k] == ranked[..k];
      var e := ranked[k];
      if |e.1| >= 3 {
        immediate := immediate + [e];
      } else if |e.1| == 2 {
        shortTerm := shortTerm + [e];
      } else {
        mediumTerm := mediumTerm + [e];
      }
      k := k + 1;
    }
    assert ranked[..|ranked|] == ranked;
  }

  /**
   * `_generate_skill_roadmap`: nothing without top careers; otherwise each bucket is the slice of the
   * prioritised skills at its need, in priority order, and each phase the first three of its bucket.
   */
  method SkillRoadmap(top: seq<(string, CareerScore)>) returns (r: Roadmap)
    ensures |top| == 0 <==> r.NoRecommendations?
    ensures r.Roadmap? ==>
      |r.immediate| + |r.shortTerm| + |r.mediumTerm| == |Prioritised(top)| <= 12
      && r.immediate == Filter(Prioritised(top), (e: (string, seq<string>)) => |e.1| >= 3)
      && r.shortTerm == Filter(Prioritised(top), (e: (string, seq<string>)) => |e.1| == 2)
      && r.mediumTerm == Filter(Prioritised(top), (e: (string, seq<string>)) => |e.1| < 2)
      && (forall e :: e in r.immediate ==> e in Prioritised(top) && |e.1| >= 3)
      && (forall e :: e in r.shortTerm ==> e in Prioritised(top) && |e.1| == 2)
      && (forall e :: e in r.mediumTerm ==> e in Prioritised(top) && |e.1| < 2)
      && r.longTerm == []
      && r.phase1 == Keys(Take(r.immediate, 3)) && r.phase2 == Keys(Take(r.shortTerm, 3))
      && r.phase3 == Keys(Take(r.mediumTerm, 3))
      && |r.phase1| <= 3 && |r.phase2| <= 3 && |r.phase3| <= 3
  {
    if |top| == 0 {
      return NoRecommendations;
    }
    var groups := CollectMissingSkills(top);
    var ranked := Take(SortDesc(groups, ByNeed()), 12);
    var immediate, shortTerm, mediumTerm := Bucket(ranked);
    FilterMembers(ranked, (e: (string, seq<string>)) => |e.1| >= 3);
    FilterMembers(ranked, (e: (string, seq<string>)) => |e.1| == 2);
    FilterMembers(ranked, (e: (string, seq<string>)) => |e.1| < 2);
    r := Roadmap(immediate, shortTerm, mediumTerm, [], Keys(Take(immediate, 3)), Keys(Take(shortTerm, 3)),
                 Keys(Take(mediumTerm, 3)));
  }

  /** The prioritised skills are sorted by need and each is missed by that many of the top careers' listings. */
  lemma PrioritisedSpec(top: seq<(string, CareerScore)>, e: (string, seq<string>))
    ensures SortedDesc(Prioritised(top), ByNeed())
    ensures e in Prioritised(top) ==> e in MissingGroups(top)
  {
    var sorted := SortDesc(MissingGroups(top), ByNeed());
    var p := Prioritised(top);
    assert forall i :: 0 <= i < |p| ==> p[i] == sorted[i];
    if e in p {
      assert e in sorted;
      assert e in multiset(sorted);
    }
  }

  // ---------------------------------------------------------------------------------------
  // Market demand
  // ---------------------------------------------------------------------------------------

  datatype DemandLevel = Low | Medium | High | VeryHigh

  function DemandRank(l: DemandLevel): nat
  {
    match l
    case Low => 0
    case Medium => 1
    case High => 2
    case VeryHigh => 3
  }

  datatype MarketDemand = MarketDemand(level: DemandLevel, growthRate: real, outlook: string,
                                       competitionHigh: bool, availabilityHigh: bool)

  /** `_assess_market_demand`: tiers at 15, 10 and 5 percent growth. */
  function AssessMarketDemand(growthRate: real): (d: MarketDemand)
    ensures d.growthRate == growthRate
  {
    var (level, outlook) :=
      if growthRate >= 15.0 then (VeryHigh, "Excellent growth prospects")
      else if growthRate >= 10.0 then (High, "Strong growth prospects")
      else if growthRate >= 5.0 then (Medium, "Stable growth prospects")
      else (Low, "Limited growth prospects");
    MarketDemand(level, growthRate, outlook, growthRate >= 12.0, growthRate >= 10.0)
  }

  /**
   * The tier never drops as growth rises; jobs are plentiful exactly at tier High or above,
   * and high competition implies plentiful jobs.
   */
  lemma MarketDemandSpec(g: real, h: real)
    ensures g <= h ==> DemandRank(AssessMarketDemand(g).level) <= DemandRank(AssessMarketDemand(h).level)
    ensures AssessMarketDemand(g).availabilityHigh <==> DemandRank(AssessMarketDemand(g).level) >= 2
    ensures AssessMarketDemand(g).competitionHigh ==> AssessMarketDemand(g).availabilityHigh
    ensures AssessMarketDemand(g).level == VeryHigh <==> g >= 15.0
    ensures AssessMarketDemand(g).level == Low <==> g < 5.0
  {
  }
}
