/**
 * The job-market analyser: per-industry opportunity scores and skill match, the three best
 * industries, the emerging trends, the demand split of the user's skills, the emerging
 * roles and the market insights. The market table is a parameter (a dict keyed by
 * industry), and so are the simulated market factors that `random.uniform(70, 90)` draws.
 */
module JobMarket {
  import opened Common

  /** One row of the market table. */
  datatype IndustryData = IndustryData(growthRate: real, demandSkills: seq<string>, salaryTrend: string,
                                       jobOpenings: nat, competition: string, emergingRoles: seq<string>)

  type MarketTable = Dict<IndustryData>

  // ---------------------------------------------------------------------------------------
  // Skill match and opportunity score
  // ---------------------------------------------------------------------------------------

  /** The user's skills that the industry demands (each listing of the user counts). */
  function Matches(skills: seq<string>, demand: seq<string>): nat
  {
    |Filter(skills, In(demand))|
  }

  /** `_calculate_skill_match`: `matches / len(demand) * 100`, or 0 for no demand skills. */
  function SkillMatch(skills: seq<string>, demand: seq<string>): real
  {
    Percent(Matches(skills, demand), |demand|)
  }

  /**
   * The match is 0 without demand skills and positive exactly when the user has one of
   * them; with distinct skills it is a percentage, and 100 when the user has every one of
   * distinct demand skills.
   */
  lemma SkillMatchSpec(skills: seq<string>, demand: seq<string>)
    ensures |demand| == 0 ==> SkillMatch(skills, demand) == 0.0
    ensures |demand| > 0 ==> (SkillMatch(skills, demand) > 0.0 <==> exists s :: s in skills && s in demand)
    ensures Distinct(skills) ==> Matches(skills, demand) <= |demand| && 0.0 <= SkillMatch(skills, demand) <= 100.0
    ensures Distinct(skills) && Distinct(demand) && |demand| > 0 && (forall d :: d in demand ==> d in skills)
            ==> SkillMatch(skills, demand) == 100.0
  {
    var f := Filter(skills, In(demand));
    FilterMembers(skills, In(demand));
    if |demand| > 0 {
      assert SkillMatch(skills, demand) == (|f| as real / |demand| as real) * 100.0;
      if |f| > 0 {
        assert f[0] in f;
      }
      if exists s :: s in skills && s in demand {
        var s :| s in skills && s in demand;
        assert s in f;
      }
    }
    if Distinct(skills) {
      FilterDistinct(skills, In(demand));
      DistinctWithinLength(f, demand);
      if Distinct(demand) && |demand| > 0 && (forall d :: d in demand ==> d in skills) {
        DistinctWithinLength(demand, f);
      }
    }
  }

  /** Growth normalised against 20 percent, at most 1. */
  function NormalizedGrowth(growthRate: real): real
  {
    MinReal(growthRate / 20.0, 1.0)
  }

  /** The weighted sum before the cap: 0.6 skill match, 0.3 growth, 0.1 market factor. */
  function RawOpportunity(skills: seq<string>, d: IndustryData, market: real): real
  {
    SkillMatch(skills, d.demandSkills) * 0.6 + NormalizedGrowth(d.growthRate) * 100.0 * 0.3 + market * 0.1
  }

  /** `_calculate_opportunity_score`, with `market` the simulated market factor. */
  function OpportunityScore(skills: seq<string>, d: IndustryData, market: real): (r: real)
    ensures r <= 100.0
  {
    MinReal(RawOpportunity(skills, d, market), 100.0)
  }

  /**
   * With distinct skills, a non-negative growth rate and a market factor in [70, 90] the
   * score lies in [7, 99]: the cap at 100 is never reached, and the score is the weighted
   * sum itself.
   */
  lemma OpportunityScoreSpec(skills: seq<string>, d: IndustryData, market: real)
    requires Distinct(skills) && 0.0 <= d.growthRate && 70.0 <= market <= 90.0
    ensures 7.0 <= OpportunityScore(skills, d, market) <= 99.0
    ensures OpportunityScore(skills, d, market) == RawOpportunity(skills, d, market)
  {
    SkillMatchSpec(skills, d.demandSkills);
  }

  /** The score never falls when the growth rate or the market factor rises. */
  lemma OpportunityScoreMonotone(skills: seq<string>, d: IndustryData, e: IndustryData, market: real, market': real)
    requires d.demandSkills == e.demandSkills && d.growthRate <= e.growthRate && market <= market'
    ensures OpportunityScore(skills, d, market) <= OpportunityScore(skills, e, market')
  {
  }

  // ---------------------------------------------------------------------------------------
  // The industry opportunities and the three best
  // ---------------------------------------------------------------------------------------

  datatype Opportunity = Opportunity(score: real, growthRate: real, demandSkills: seq<string>, salaryTrend: string,
                                     jobOpenings: nat, competition: string, skillMatch: real)

  function OpportunityOf(skills: seq<string>, d: IndustryData, market: real): Opportunity
  {
    Opportunity(OpportunityScore(skills, d, market), d.growthRate, d.demandSkills, d.salaryTrend, d.jobOpenings,
                d.competition, SkillMatch(skills, d.demandSkills))
  }

  /** The opportunity of every industry, in table order; `draws[i]` is the i-th market factor. */
  function Opportunities(skills: seq<string>, table: MarketTable, draws: seq<real>): (r: Dict<Opportunity>)
    requires |draws| == |table|
    ensures |r| == |table|
  {
    seq(|table|, i requires 0 <= i < |table| => (table[i].0, OpportunityOf(skills, table[i].1, draws[i])))
  }

  /** The loop of `analyze_market` filling `industry_opportunities`. */
  method CollectOpportunities(skills: seq<string>, table: MarketTable, draws: seq<real>) returns (r: Dict<Opportunity>)
    requires |draws| == |table|
    ensures r == Opportunities(skills, table, draws)
  {
    r := [];
    for k := 0 to |table|
      invariant |r| == k
      invariant forall j :: 0 <= j < k ==> r[j] == (table[j].0, OpportunityOf(skills, table[j].1, draws[j]))
    {
      var (industry, d) := table[k];
      var score := OpportunityScore(skills, d, draws[k]);
      r := r + [(industry, Opportunity(score, d.growthRate, d.demandSkills, d.salaryTrend, d.jobOpenings,
                                       d.competition, SkillMatch(skills, d.demandSkills)))];
    }
  }

  function ByOpportunity(): ((string, Opportunity)) -> real
  {
    (e: (string, Opportunity)) => e.1.score
  }

  /** `sorted(..., key=opportunity_score, reverse=True)[:3]`. */
  function TopIndustries(opps: Dict<Opportunity>): seq<(string, Opportunity)>
  {
    Take(SortDesc(opps, ByOpportunity()), 3)
  }

  /**
   * The top industries are at most three of the opportunities in descending order, and an
   * industry left out scores no higher than any of the three.
   */
  lemma TopIndustriesSpec(opps: Dict<Opportunity>, e: (string, Opportunity))
    ensures var top := TopIndustries(opps);
      |top| == Min(3, |opps|)
      && SortedDesc(top, ByOpportunity())
      && (forall x :: x in top ==> x in opps)
      && (e in opps && e !in top ==> |top| == 3 && forall i :: 0 <= i < 3 ==> top[i].1.score >= e.1.score)
  {
    var sorted := SortDesc(opps, ByOpportunity());
    var top := TopIndustries(opps);
    assert forall i :: 0 <= i < |top| ==> top[i] == sorted[i];
    forall x | x in top ensures x in opps {
      assert x in multiset(sorted);
    }
    if e in opps && e !in top {
      assert e in multiset(opps);
      TakeTop(sorted, ByOpportunity(), 3, e);
    }
  }

  // ---------------------------------------------------------------------------------------
  // Emerging trends
  // ---------------------------------------------------------------------------------------

  datatype TrendKind = AiIntegration | RemoteWorkEvolution | DataDrivenDecisions | SustainabilityFocus

  datatype Relevance = High | Medium

  datatype Trend = Trend(kind: TrendKind, relevance: Relevance)

  function HighIf(b: bool): Relevance
  {
    if b then High else Medium
  }

  /** The four trends, in the source's order, given which of the first three are high. */
  function TrendsOf(ai: bool, remote: bool, data: bool): seq<Trend>
  {
    [Trend(AiIntegration, HighIf(ai)), Trend(RemoteWorkEvolution, HighIf(remote)),
     Trend(DataDrivenDecisions, HighIf(data)), Trend(SustainabilityFocus, Medium)]
  }

  /** The four trends with their relevance for the skills. */
  function Trends(skills: seq<string>): seq<Trend>
  {
    TrendsOf("Machine Learning" in skills || "Python Programming" in skills, "Communication" in skills,
             "Data Analysis" in skills)
  }

  lemma TrendsOfRelevance(ai: bool, remote: bool, data: bool)
    ensures var t := TrendsOf(ai, remote, data);
      (Trend(AiIntegration, High) in t <==> ai) && (Trend(RemoteWorkEvolution, High) in t <==> remote)
      && (Trend(DataDrivenDecisions, High) in t <==> data) && Trend(SustainabilityFocus, Medium) in t
  {
    var t := TrendsOf(ai, remote, data);
    assert t[3] == Trend(SustainabilityFocus, Medium);
  }

  function HighFirst(): Trend -> real
  {
    (t: Trend) => if t.relevance == High then 1.0 else 0.0
  }

  /**
   * `_identify_emerging_trends`: every trend is either high or medium, so the relevance
   * filter keeps all four; the stable sort puts the high ones first.
   */
  function EmergingTrends(skills: seq<string>): seq<Trend>
  {
    SortDesc(Trends(skills), HighFirst())
  }

  /**
   * All four trends are kept, no medium trend precedes a high one, and each relevance
   * group keeps the source's order.
   */
  lemma EmergingTrendsOrdered(skills: seq<string>)
    ensures var r := EmergingTrends(skills);
      |r| == 4
      && multiset(r) == multiset(Trends(skills))
      && (forall i, j :: 0 <= i < j < |r| && r[i].relevance == Medium ==> r[j].relevance == Medium)
      && Filter(r, KeyIs(HighFirst(), 1.0)) == Filter(Trends(skills), KeyIs(HighFirst(), 1.0))
      && Filter(r, KeyIs(HighFirst(), 0.0)) == Filter(Trends(skills), KeyIs(HighFirst(), 0.0))
  {
    SortedByRelevance(Trends(skills));
  }

  lemma SortedByRelevance(t: seq<Trend>)
    ensures var r := SortDesc(t, HighFirst());
      |r| == |t|
      && (forall i, j :: 0 <= i < j < |r| && r[i].relevance == Medium ==> r[j].relevance == Medium)
      && Filter(r, KeyIs(HighFirst(), 1.0)) == Filter(t, KeyIs(HighFirst(), 1.0))
      && Filter(r, KeyIs(HighFirst(), 0.0)) == Filter(t, KeyIs(HighFirst(), 0.0))
  {
    var r := SortDesc(t, HighFirst());
    SortDescStable(t, HighFirst(), 1.0);
    SortDescStable(t, HighFirst(), 0.0);
    forall i, j | 0 <= i < j < |r| && r[i].relevance == Medium ensures r[j].relevance == Medium {
      assert HighFirst()(r[i]) >= HighFirst()(r[j]);
    }
  }

  /** The sort keeps exactly the trends it is given. */
  lemma EmergingTrendsMembers(skills: seq<string>, x: Trend)
    ensures x in EmergingTrends(skills) <==> x in Trends(skills)
  {
    var r, t := EmergingTrends(skills), Trends(skills);
    assert multiset(r) == multiset(t);
    assert x in r <==> x in multiset(r);
    assert x in t <==> x in multiset(t);
  }

  /** A trend is high exactly when the user has its skill; sustainability is always medium. */
  lemma EmergingTrendsRelevance(skills: seq<string>)
    ensures var r := EmergingTrends(skills);
      (Trend(AiIntegration, High) in r <==> "Machine Learning" in skills || "Python Programming" in skills)
      && (Trend(RemoteWorkEvolution, High) in r <==> "Communication" in skills)
      && (Trend(DataDrivenDecisions, High) in r <==> "Data Analysis" in skills)
      && Trend(SustainabilityFocus, Medium) in r
  {
    EmergingTrendsMembers(skills, Trend(AiIntegration, High));
    EmergingTrendsMembers(skills, Trend(RemoteWorkEvolution, High));
    EmergingTrendsMembers(skills, Trend(DataDrivenDecisions, High));
    EmergingTrendsMembers(skills, Trend(SustainabilityFocus, Medium));
    TrendsOfRelevance("Machine Learning" in skills || "Python Programming" in skills, "Communication" in skills,
                      "Data Analysis" in skills);
  }

  // ---------------------------------------------------------------------------------------
  // Demand for the user's skills
  // ---------------------------------------------------------------------------------------

  const HighDemandSkills: seq<string> := ["Python Programming", "Machine Learning", "Data Analysis"]

  datatype SkillDemand = SkillDemand(high: seq<string>, medium: seq<string>, demandScore: nat)

  function SkillDemandOf(skills: seq<string>): SkillDemand
  {
    var high := Filter(skills, In(HighDemandSkills));
    var medium := Filter(skills, Not(In(HighDemandSkills)));
    SkillDemand(high, medium, 2 * |high| + |medium|)
  }

  /** `_analyze_skill_demand`: one pass splitting the skills into high and medium demand. */
  method AnalyzeSkillDemand(skills: seq<string>) returns (r: SkillDemand)
    ensures r == SkillDemandOf(skills)
  {
    var high, medium := [], [];
    assert skills[..0] == [];
    for k := 0 to |skills|
      invariant high == Filter(skills[..k], In(HighDemandSkills))
      invariant medium == Filter(skills[..k], Not(In(HighDemandSkills)))
    {
      assert skills[..k + 1][..k] == skills[..k];
      if skills[k] in HighDemandSkills {
        high := high + [skills[k]];
      } else {
        medium := medium + [skills[k]];
      }
    }
    assert skills[..|skills|] == skills;
    r := SkillDemand(high, medium, 2 * |high| + |medium|);
  }

  /**
   * Every skill lands in exactly one list, high demand holding exactly the three named
   * skills, in input order; the demand score lies between one and two points per skill.
   */
  lemma SkillDemandSpec(skills: seq<string>, s: string)
    ensures var r := SkillDemandOf(skills);
      multiset(r.high) + multiset(r.medium) == multiset(skills)
      && (s in r.high <==> s in skills && s in HighDemandSkills)
      && (s in r.medium <==> s in skills && s !in HighDemandSkills)
      && |skills| <= r.demandScore <= 2 * |skills|
      && r.demandScore == |skills| + |r.high|
  {
    var r := SkillDemandOf(skills);
    FilterPartition(skills, In(HighDemandSkills));
    FilterMembers(skills, In(HighDemandSkills));
    FilterMembers(skills, Not(In(HighDemandSkills)));
    assert |multiset(r.high) + multiset(r.medium)| == |skills|;
  }

  // ---------------------------------------------------------------------------------------
  // Emerging roles
  // ---------------------------------------------------------------------------------------

  datatype EmergingRole = EmergingRole(role: string, industry: string, requiredSkills: seq<string>, userSkillMatch: nat)

  /** The listed roles of one industry: all of them when the user has a demand skill, else none. */
  function RolesOf(skills: seq<string>, industry: string, d: IndustryData): (r: seq<EmergingRole>)
    ensures Matches(skills, d.demandSkills) == 0 ==> r == []
    ensures Matches(skills, d.demandSkills) > 0 ==> |r| == |d.emergingRoles|
  {
    var m := Matches(skills, d.demandSkills);
    if m == 0 then []
    else seq(|d.emergingRoles|, i requires 0 <= i < |d.emergingRoles| => EmergingRole(d.emergingRoles[i], industry, d.demandSkills, m))
  }

  /** The roles of every industry, in table order, before the sort. */
  function AllRoles(skills: seq<string>, table: MarketTable): seq<EmergingRole>
    decreases |table|
  {
    if |table| == 0 then []
    else AllRoles(skills, table[..|table| - 1]) + RolesOf(skills, table[|table| - 1].0, table[|table| - 1].1)
  }

  function ByMatch(): EmergingRole -> real
  {
    (e: EmergingRole) => e.userSkillMatch as real
  }

  /** `_identify_emerging_roles`: sorted by the user's match, descending and stable, top ten. */
  function EmergingRoles(skills: seq<string>, table: MarketTable): seq<EmergingRole>
  {
    Take(SortDesc(AllRoles(skills, table), ByMatch()), 10)
  }

  /** Appends the roles of one industry. */
  method AppendRoles(roles: seq<EmergingRole>, skills: seq<string>, industry: string, d: IndustryData)
    returns (roles': seq<EmergingRole>)
    ensures roles' == roles + RolesOf(skills, industry, d)
  {
    roles' := roles;
    var relevant := Filter(skills, In(d.demandSkills));
    if |relevant| == 0 {
      assert roles + [] == roles;
      return;
    }
    for k := 0 to |d.emergingRoles|
      invariant |roles'| == |roles| + k
      invariant roles'[..|roles|] == roles
      invariant forall j :: 0 <= j < k ==> roles'[|roles| + j] == RolesOf(skills, industry, d)[j]
    {
      roles' := roles' + [EmergingRole(d.emergingRoles[k], industry, d.demandSkills, |relevant|)];
    }
    assert roles' == roles + RolesOf(skills, industry, d);
  }

  method IdentifyEmergingRoles(skills: seq<string>, table: MarketTable) returns (r: seq<EmergingRole>)
    ensures r == EmergingRoles(skills, table)
  {
    var roles := [];
    assert table[..0] == [];
    for k := 0 to |table|
      invariant roles == AllRoles(skills, table[..k])
    {
      assert table[..k + 1][..k] == table[..k];
      roles := AppendRoles(roles, skills, table[k].0, table[k].1);
    }
    assert table[..|table|] == table;
    r := Take(SortDesc(roles, ByMatch()), 10);
  }

  /** The role a table entry lists at position `j`, with the user's match for that industry. */
  function RoleAt(skills: seq<string>, table: MarketTable, i: nat, j: nat): EmergingRole
    requires i < |table| && j < |table[i].1.emergingRoles|
  {
    EmergingRole(table[i].1.emergingRoles[j], table[i].0, table[i].1.demandSkills, Matches(skills, table[i].1.demandSkills))
  }

  /** `x` is a role listed by an industry of the table whose demand skills the user has. */
  ghost predicate Listed(skills: seq<string>, table: MarketTable, x: EmergingRole)
  {
    exists i, j :: 0 <= i < |table| && 0 <= j < |table[i].1.emergingRoles|
                   && Matches(skills, table[i].1.demandSkills) > 0 && x == RoleAt(skills, table, i, j)
  }

  /** A role listed by the table's last entry, or by the entries before it, is listed by the table. */
  lemma ListedGrows(skills: seq<string>, table: MarketTable, x: EmergingRole)
    requires |table| > 0
    ensures var n := |table| - 1;
      (Listed(skills, table[..n], x) || x in RolesOf(skills, table[n].0, table[n].1)) ==> Listed(skills, table, x)
  {
    var n := |table| - 1;
    var init := table[..n];
    var last := RolesOf(skills, table[n].0, table[n].1);
    if x in last {
      var j :| 0 <= j < |last| && last[j] == x;
      assert x == RoleAt(skills, table, n, j);
    } else if Listed(skills, init, x) {
      var i, j :| 0 <= i < |init| && 0 <= j < |init[i].1.emergingRoles|
                  && Matches(skills, init[i].1.demandSkills) > 0 && x == RoleAt(skills, init, i, j);
      assert init[i] == table[i];
      assert x == RoleAt(skills, table, i, j);
    }
  }

  /** A role listed by the table is listed by its last entry or by the entries before it. */
  lemma ListedSplits(skills: seq<string>, table: MarketTable, x: EmergingRole)
    requires |table| > 0 && Listed(skills, table, x)
    ensures var n := |table| - 1;
      Listed(skills, table[..n], x) || x in RolesOf(skills, table[n].0, table[n].1)
  {
    var n := |table| - 1;
    var init := table[..n];
    var i, j :| 0 <= i < |table| && 0 <= j < |table[i].1.emergingRoles|
                && Matches(skills, table[i].1.demandSkills) > 0 && x == RoleAt(skills, table, i, j);
    if i == n {
      assert RolesOf(skills, table[n].0, table[n].1)[j] == x;
    } else {
      assert init[i] == table[i];
      assert x == RoleAt(skills, init, i, j);
    }
  }

  /** Before the sort the roles are exactly the listed roles of the industries the user matches. */
  lemma {:induction false} AllRolesMembers(skills: seq<string>, table: MarketTable, x: EmergingRole)
    ensures x in AllRoles(skills, table) <==> Listed(skills, table, x)
    decreases |table|
  {
    if |table| > 0 {
      var n := |table| - 1;
      AllRolesMembers(skills, table[..n], x);
      ListedGrows(skills, table, x);
      if Listed(skills, table, x) {
        ListedSplits(skills, table, x);
      }
    }
  }

  /**
   * At most ten roles, in descending order of match; every listed role is a role of an
   * industry with at least one of the user's skills, carrying that match; and a role left
   * out matches no better than any of the ten listed.
   */
  lemma EmergingRolesSpec(skills: seq<string>, table: MarketTable, e: EmergingRole)
    ensures var r := EmergingRoles(skills, table);
      |r| <= 10
      && SortedDesc(r, ByMatch())
      && (forall x :: x in r ==> x.userSkillMatch >= 1 && x in AllRoles(skills, table))
      && (e in AllRoles(skills, table) && e !in r
          ==> |r| == 10 && forall i :: 0 <= i < 10 ==> r[i].userSkillMatch >= e.userSkillMatch)
  {
    EmergingRolesOrdered(skills, table);
    forall x | x in EmergingRoles(skills, table) ensures x.userSkillMatch >= 1 && x in AllRoles(skills, table) {
      ListedRole(skills, table, x);
    }
    EmergingRolesCutoff(skills, table, e);
  }

  lemma EmergingRolesOrdered(skills: seq<string>, table: MarketTable)
    ensures |EmergingRoles(skills, table)| <= 10 && SortedDesc(EmergingRoles(skills, table), ByMatch())
  {
    var sorted := SortDesc(AllRoles(skills, table), ByMatch());
    var r := EmergingRoles(skills, table);
    assert forall i :: 0 <= i < |r| ==> r[i] == sorted[i];
  }

  /** A role left out of the ten matches no better than any listed one. */
  lemma EmergingRolesCutoff(skills: seq<string>, table: MarketTable, e: EmergingRole)
    ensures var r := EmergingRoles(skills, table);
      e in AllRoles(skills, table) && e !in r
      ==> |r| == 10 && forall i :: 0 <= i < 10 ==> r[i].userSkillMatch >= e.userSkillMatch
  {
    var all := AllRoles(skills, table);
    var sorted := SortDesc(all, ByMatch());
    if e in all && e !in Take(sorted, 10) {
      assert e in multiset(all);
      TakeTop(sorted, ByMatch(), 10, e);
    }
  }

  /** A listed role comes from the roles before the sort and carries a positive match. */
  lemma ListedRole(skills: seq<string>, table: MarketTable, x: EmergingRole)
    requires x in EmergingRoles(skills, table)
    ensures x.userSkillMatch >= 1 && x in AllRoles(skills, table)
  {
    var all := AllRoles(skills, table);
    var sorted := SortDesc(all, ByMatch());
    assert x in sorted;
    assert x in multiset(sorted);
    assert x in all;
    AllRolesMembers(skills, table, x);
  }

  // ---------------------------------------------------------------------------------------
  // Market insights
  // ---------------------------------------------------------------------------------------

  datatype Insight =
    | StrongFoundation
    | GoodSkillBase
    | BuildCoreSkills
    | BestOpportunities(industry: string)
    | HighGrowthSectors(industries: seq<string>)

  /** The skill-strength insight: above 70, above 40, else the advice to build core skills. */
  function StrengthInsight(strength: real): Insight
  {
    if strength > 70.0 then StrongFoundation
    else if strength > 40.0 then GoodSkillBase
    else BuildCoreSkills
  }

  /** The index `max(..., key=opportunity_score)` picks: the first of the highest scores. */
  function BestIndex(opps: Dict<Opportunity>): (i: nat)
    requires |opps| > 0
    ensures i < |opps|
    ensures forall j :: 0 <= j < |opps| ==> opps[j].1.score <= opps[i].1.score
    ensures forall j :: 0 <= j < i ==> opps[j].1.score < opps[i].1.score
    decreases |opps|
  {
    if |opps| == 1 then 0
    else
      var n := |opps| - 1;
      var b := BestIndex(opps[..n]);
      assert opps[..n][b] == opps[b];
      assert forall j :: 0 <= j < n ==> opps[..n][j] == opps[j];
      if opps[n].1.score > opps[b].1.score then n else b
  }

  function FastGrowing(): ((string, Opportunity)) -> bool
  {
    (e: (string, Opportunity)) => e.1.growthRate > 10.0
  }

  /** The industries growing faster than 10 percent, in table order. */
  function HighGrowthIndustries(opps: Dict<Opportunity>): seq<string>
  {
    Keys(Filter(opps, FastGrowing()))
  }

  /**
   * `_generate_market_insights`: the strength insight, the best industry and, when there
   * is one, the list of fast-growing industries. `max` of no industries raises: `None`.
   */
  function MarketInsights(strength: Option<real>, opps: Dict<Opportunity>): Option<seq<Insight>>
  {
    if |opps| == 0 then None
    else
      var s := if strength.Some? then strength.value else 0.0;
      var growth := HighGrowthIndustries(opps);
      Some([StrengthInsight(s), BestOpportunities(opps[BestIndex(opps)].0)]
           + (if |growth| > 0 then [HighGrowthSectors(growth)] else []))
  }

  /**
   * Insights exist exactly for a non-empty table; they open with the strength insight
   * (a missing strength counts as 0), then name an industry with the highest score, and
   * add a third line exactly when some industry grows faster than 10 percent, listing
   * exactly those industries.
   */
  lemma MarketInsightsSpec(strength: Option<real>, opps: Dict<Opportunity>, k: string)
    ensures var r := MarketInsights(strength, opps);
      (r.None? <==> |opps| == 0)
      && (r.Some? ==>
            var s := if strength.Some? then strength.value else 0.0;
            (r.value[0] == StrongFoundation <==> s > 70.0)
            && (r.value[0] == GoodSkillBase <==> 40.0 < s <= 70.0)
            && (r.value[0] == BuildCoreSkills <==> s <= 40.0)
            && r.value[1].BestOpportunities?
            && (exists i :: 0 <= i < |opps| && opps[i].0 == r.value[1].industry
                            && forall j :: 0 <= j < |opps| ==> opps[j].1.score <= opps[i].1.score)
            && (|r.value| == 3 <==> exists i :: 0 <= i < |opps| && opps[i].1.growthRate > 10.0)
            && |r.value| in {2, 3}
            && (|r.value| == 3 ==> (k in r.value[2].industries <==> exists i :: 0 <= i < |opps| && opps[i].0 == k && opps[i].1.growthRate > 10.0)))
  {
    if |opps| > 0 {
      var b := BestIndex(opps);
      assert opps[b].0 == MarketInsights(strength, opps).value[1].industry;
      HighGrowthIndustriesSpec(opps, k);
    }
  }

  /**
   * The fast-growing industries are not empty exactly when some industry grows faster than
   * 10 percent, and they name exactly those industries.
   */
  lemma HighGrowthIndustriesSpec(opps: Dict<Opportunity>, k: string)
    ensures var g := HighGrowthIndustries(opps);
      (|g| > 0 <==> exists i :: 0 <= i < |opps| && opps[i].1.growthRate > 10.0)
      && (k in g <==> exists i :: 0 <= i < |opps| && opps[i].0 == k && opps[i].1.growthRate > 10.0)
  {
    var f := Filter(opps, FastGrowing());
    FilterMembers(opps, FastGrowing());
    if exists i :: 0 <= i < |opps| && opps[i].1.growthRate > 10.0 {
      var i :| 0 <= i < |opps| && opps[i].1.growthRate > 10.0;
      assert opps[i] in f;
    }
    if |f| > 0 {
      assert f[0] in f;
      var i :| 0 <= i < |opps| && opps[i] == f[0];
      assert opps[i].1.growthRate > 10.0;
    }
    if k in Keys(f) {
      var m :| 0 <= m < |f| && Keys(f)[m] == k;
      assert f[m] in opps;
    }
    if exists i :: 0 <= i < |opps| && opps[i].0 == k && opps[i].1.growthRate > 10.0 {
      var i :| 0 <= i < |opps| && opps[i].0 == k && opps[i].1.growthRate > 10.0;
      assert opps[i] in f;
      var m :| 0 <= m < |f| && f[m] == opps[i];
      assert Keys(f)[m] == k;
    }
  }

  // ---------------------------------------------------------------------------------------
  // analyze_market
  // ---------------------------------------------------------------------------------------

  datatype MarketAnalysis = MarketAnalysis(top: seq<(string, Opportunity)>, trends: seq<Trend>,
                                           insights: seq<Insight>, demand: SkillDemand, roles: seq<EmergingRole>)

  /**
   * `analyze_market` on the matched skill names and the strength score. Without any
   * industry the insights' `max` raises, so the analysis fails (`None`).
   */
  method AnalyzeMarket(skills: seq<string>, strength: Option<real>, table: MarketTable, draws: seq<real>)
    returns (r: Option<MarketAnalysis>)
    requires |draws| == |table|
    ensures r.None? <==> |table| == 0
    ensures r.Some? ==>
      var opps := Opportunities(skills, table, draws);
      r.value == MarketAnalysis(TopIndustries(opps), EmergingTrends(skills), MarketInsights(strength, opps).value,
                                SkillDemandOf(skills), EmergingRoles(skills, table))
  {
    var opps := CollectOpportunities(skills, table, draws);
    var top := Take(SortDesc(opps, ByOpportunity()), 3);
    var trends := EmergingTrends(skills);
    var insights := MarketInsights(strength, opps);
    if insights.None? {
      return None;
    }
    var demand := AnalyzeSkillDemand(skills);
    var roles := IdentifyEmergingRoles(skills, table);
    r := Some(MarketAnalysis(top, trends, insights.value, demand, roles));
  }
}
