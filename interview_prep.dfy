/**
 * The AI interview-preparation engine: question selection, rule-based answer analysis,
 * the optional coach enrichment, the per-user session that walks through the questions,
 * the final report and the cross-interview insights.
 */
module InterviewPrep {
  import opened Common
  import opened Text
  import opened Ranking

  // ---------------------------------------------------------------------------------------
  // The question bank
  // ---------------------------------------------------------------------------------------

  datatype Question = Question(
    id: string,
    text: string,
    difficulty: string,
    category: Option<string>,
    expectedKeywords: seq<string>,
    sampleAnswer: string)

  /** `question.get('category', 'General')`. */
  function CategoryOf(q: Question): string
  {
    match q.category
    case Some(c) => c
    case None => "General"
  }

  /** The interview types the engine knows; any other name is kept as given. */
  datatype InterviewType = Technical | Behavioral | SystemDesign | Mixed | Unsupported(name: string)

  function ParseType(name: string): InterviewType
  {
    if name == "technical" then Technical
    else if name == "behavioral" then Behavioral
    else if name == "system_design" then SystemDesign
    else if name == "mixed" then Mixed
    else Unsupported(name)
  }

  function TypeName(t: InterviewType): string
  {
    match t
    case Technical => "technical"
    case Behavioral => "behavioral"
    case SystemDesign => "system_design"
    case Mixed => "mixed"
    case Unsupported(name) => name
  }

  /** The session keeps the type's name exactly as the caller wrote it. */
  lemma TypeNameRoundTrip(name: string)
    ensures TypeName(ParseType(name)) == name
  {
  }

  /** Technical questions grouped by subcategory, then the behavioral and system-design lists. */
  datatype QuestionBank = QuestionBank(
    technical: Dict<seq<Question>>,
    behavioral: seq<Question>,
    systemDesign: seq<Question>)

  function HasDifficulty(d: string): Question -> bool
  {
    (q: Question) => q.difficulty == d
  }

  /** `[q for q in qs if q['difficulty'] == d]`. */
  function AtLevel(qs: seq<Question>, d: string): seq<Question>
  {
    Filter(qs, HasDifficulty(d))
  }

  /** The first `n` questions at level `d` of every group, group after group. */
  function PerGroup(groups: Dict<seq<Question>>, d: string, n: nat): seq<Question>
  {
    if |groups| == 0 then []
    else PerGroup(groups[..|groups| - 1], d, n) + Take(AtLevel(groups[|groups| - 1].1, d), n)
  }

  /**
   * The questions gathered before shuffling: two per technical subcategory, every
   * behavioral or system-design question, or one from each subcategory and list for
   * "mixed" (the technical dict comes first in the bank). Any other type gathers nothing.
   */
  function Candidates(bank: QuestionBank, kind: InterviewType, d: string): seq<Question>
  {
    match kind
    case Technical => PerGroup(bank.technical, d, 2)
    case Behavioral => AtLevel(bank.behavioral, d)
    case SystemDesign => AtLevel(bank.systemDesign, d)
    case Mixed =>
      PerGroup(bank.technical, d, 1) + Take(AtLevel(bank.behavioral, d), 1)
        + Take(AtLevel(bank.systemDesign, d), 1)
    case Unsupported(_) => []
  }

  /** Shuffles the candidates with the given random draws and keeps the first five. */
  function Selection(bank: QuestionBank, kind: InterviewType, d: string, draws: seq<nat>): seq<Question>
  {
    Take(Shuffle(Candidates(bank, kind, d), draws), 5)
  }

  method CollectPerGroup(groups: Dict<seq<Question>>, d: string, n: nat) returns (all: seq<Question>)
    ensures all == PerGroup(groups, d, n)
  {
    all := [];
    var i := 0;
    while i < |groups|
      invariant 0 <= i <= |groups|
      invariant all == PerGroup(groups[..i], d, n)
    {
      assert groups[..i + 1][..i] == groups[..i];
      all := all + Take(AtLevel(groups[i].1, d), n);
      i := i + 1;
    }
    assert groups[..|groups|] == groups;
  }

  method SelectQuestions(bank: QuestionBank, kind: InterviewType, d: string, draws: seq<nat>)
    returns (qs: seq<Question>)
    ensures qs == Selection(bank, kind, d, draws)
  {
    var all: seq<Question> := [];
    match kind {
      case Technical =>
        all := CollectPerGroup(bank.technical, d, 2);
      case Behavioral =>
        all := AtLevel(bank.behavioral, d);
      case SystemDesign =>
        all := AtLevel(bank.systemDesign, d);
      case Mixed =>
        var t := CollectPerGroup(bank.technical, d, 1);
        all := t + Take(AtLevel(bank.behavioral, d), 1) + Take(AtLevel(bank.systemDesign, d), 1);
      case Unsupported(_) =>
    }
    var a := new Question[|all|](i requires 0 <= i < |all| => all[i]);
    assert a[..] == all;
    ShuffleArray(a, draws);
    qs := Take(a[..], 5);
  }

  lemma {:induction false} PerGroupMembers(groups: Dict<seq<Question>>, d: string, n: nat)
    ensures forall q :: q in PerGroup(groups, d, n) ==>
      q.difficulty == d && exists j :: 0 <= j < |groups| && q in groups[j].1
    decreases |groups|
  {
    if |groups| > 0 {
      var init := groups[..|groups| - 1];
      var last := groups[|groups| - 1].1;
      PerGroupMembers(init, d, n);
      FilterMembers(last, HasDifficulty(d));
      forall q | q in PerGroup(groups, d, n)
        ensures q.difficulty == d && exists j :: 0 <= j < |groups| && q in groups[j].1
      {
        if q in PerGroup(init, d, n) {
          var j :| 0 <= j < |init| && q in init[j].1;
          assert groups[j] == init[j];
        } else {
          assert q in Take(AtLevel(last, d), n);
          assert q in AtLevel(last, d);
        }
      }
    }
  }

  lemma CandidatesAtLevel(bank: QuestionBank, kind: InterviewType, d: string)
    ensures forall q :: q in Candidates(bank, kind, d) ==> q.difficulty == d
  {
    match kind {
      case Technical =>
        PerGroupMembers(bank.technical, d, 2);
      case Behavioral =>
        FilterMembers(bank.behavioral, HasDifficulty(d));
      case SystemDesign =>
        FilterMembers(bank.systemDesign, HasDifficulty(d));
      case Mixed =>
        PerGroupMembers(bank.technical, d, 1);
        var b := AtLevel(bank.behavioral, d);
        var s := AtLevel(bank.systemDesign, d);
        FilterMembers(bank.behavioral, HasDifficulty(d));
        FilterMembers(bank.systemDesign, HasDifficulty(d));
        forall q | q in Candidates(bank, kind, d) ensures q.difficulty == d {
          if q in Take(b, 1) {
            assert q in b;
          } else if q in Take(s, 1) {
            assert q in s;
          }
        }
      case Unsupported(_) =>
    }
  }

  /**
   * At most five questions, all at the requested difficulty, each drawn from the candidates
   * no more often than it occurs there; an unknown interview type selects nothing.
   */
  lemma SelectionShape(bank: QuestionBank, kind: InterviewType, d: string, draws: seq<nat>)
    ensures var qs := Selection(bank, kind, d, draws);
      |qs| <= 5
      && multiset(qs) <= multiset(Candidates(bank, kind, d))
      && (forall q :: q in qs ==> q.difficulty == d)
      && (kind.Unsupported? ==> qs == [])
  {
    var c := Candidates(bank, kind, d);
    var s := Shuffle(c, draws);
    var qs := Take(s, 5);
    assert s == qs + s[|qs|..];
    assert multiset(qs) <= multiset(s);
    CandidatesAtLevel(bank, kind, d);
    forall q | q in qs ensures q.difficulty == d {
      assert q in multiset(c);
    }
  }

  /** Technical subcategories share no question, and none of them with the two lists. */
  ghost predicate Disjoint(bank: QuestionBank)
  {
    var g := bank.technical;
    (forall i, j, q :: 0 <= i < |g| && 0 <= j < |g| && i != j && q in g[i].1 ==> q !in g[j].1)
    && (forall i, q :: 0 <= i < |g| && q in g[i].1 ==> q !in bank.behavioral && q !in bank.systemDesign)
    && (forall q :: q in bank.behavioral ==> q !in bank.systemDesign)
  }

  function InGroup(g: seq<Question>): Question -> bool
  {
    (q: Question) => q in g
  }

  /** Nothing of a group outside `g` passes the membership test of `g`. */
  lemma NoneInGroup(xs: seq<Question>, g: seq<Question>)
    requires forall q :: q in xs ==> q !in g
    ensures Filter(xs, InGroup(g)) == []
  {
    FilterNone(xs, InGroup(g));
  }

  /** No question of group `k` lies in another group. */
  ghost predicate ApartFromOthers(g: Dict<seq<Question>>, k: nat)
  {
    k < |g| && forall j, q :: 0 <= j < |g| && j != k && q in g[j].1 ==> q !in g[k].1
  }

  lemma DisjointApart(bank: QuestionBank, k: nat)
    requires Disjoint(bank) && k < |bank.technical|
    ensures ApartFromOthers(bank.technical, k)
  {
    var g := bank.technical;
    forall j, q | 0 <= j < |g| && j != k && q in g[j].1 ensures q !in g[k].1 {
      assert q in g[j].1 ==> q !in g[k].1;
    }
  }

  lemma {:induction false} PerGroupBound(g: Dict<seq<Question>>, m: nat, d: string, n: nat, k: nat)
    requires ApartFromOthers(g, k) && k < m <= |g|
    ensures |Filter(PerGroup(g[..m], d, n), InGroup(g[k].1))| <= n
    decreases m
  {
    var groups := g[..m];
    var init := groups[..m - 1];
    assert init == g[..m - 1];
    var t := Take(AtLevel(groups[m - 1].1, d), n);
    var p := InGroup(g[k].1);
    FilterConcat(PerGroup(init, d, n), t, p);
    FilterMembers(groups[m - 1].1, HasDifficulty(d));
    if k == m - 1 {
      PerGroupMembers(init, d, n);
      forall q | q in PerGroup(init, d, n) ensures q !in g[k].1 {
        var j :| 0 <= j < |init| && q in init[j].1;
        assert q in g[j].1;
      }
      NoneInGroup(PerGroup(init, d, n), g[k].1);
    } else {
      PerGroupBound(g, m - 1, d, n, k);
      forall q | q in t ensures q !in g[k].1 {
        assert q in g[m - 1].1;
      }
      NoneInGroup(t, g[k].1);
    }
  }

  /** Shuffling and truncating never increases how many selected questions pass a test. */
  lemma SelectionFilterBound(bank: QuestionBank, kind: InterviewType, d: string, draws: seq<nat>, p: Question -> bool)
    ensures |Filter(Selection(bank, kind, d, draws), p)| <= |Filter(Candidates(bank, kind, d), p)|
  {
    var c := Candidates(bank, kind, d);
    var s := Shuffle(c, draws);
    FilterPrefixLength(s, Min(5, |s|), p);
    assert Take(s, 5) == s[..Min(5, |s|)];
    FilterLengthPermutation(s, c, p);
  }

  /** A technical interview asks at most two questions of any one subcategory. */
  lemma TechnicalAtMostTwoPerSubcategory(bank: QuestionBank, d: string, draws: seq<nat>, k: nat)
    requires Disjoint(bank) && k < |bank.technical|
    ensures |Filter(Selection(bank, Technical, d, draws), InGroup(bank.technical[k].1))| <= 2
  {
    DisjointApart(bank, k);
    PerGroupBound(bank.technical, |bank.technical|, d, 2, k);
    assert bank.technical[..|bank.technical|] == bank.technical;
    SelectionFilterBound(bank, Technical, d, draws, InGroup(bank.technical[k].1));
  }

  /** The questions taken from a list all belong to that list. */
  lemma TakenFrom(qs: seq<Question>, d: string, n: nat)
    ensures forall q :: q in Take(AtLevel(qs, d), n) ==> q in qs
  {
    FilterMembers(qs, HasDifficulty(d));
  }

  /** The questions a mixed interview takes from the two lists lie outside every subcategory. */
  lemma ListsOutsideSubcategory(bank: QuestionBank, d: string, k: nat)
    requires Disjoint(bank) && k < |bank.technical|
    ensures Filter(Take(AtLevel(bank.behavioral, d), 1), InGroup(bank.technical[k].1)) == []
    ensures Filter(Take(AtLevel(bank.systemDesign, d), 1), InGroup(bank.technical[k].1)) == []
  {
    TakenFrom(bank.behavioral, d, 1);
    TakenFrom(bank.systemDesign, d, 1);
    NoneInGroup(Take(AtLevel(bank.behavioral, d), 1), bank.technical[k].1);
    NoneInGroup(Take(AtLevel(bank.systemDesign, d), 1), bank.technical[k].1);
  }

  lemma MixedCandidatesPerSubcategory(bank: QuestionBank, d: string, k: nat)
    requires Disjoint(bank) && k < |bank.technical|
    ensures |Filter(Candidates(bank, Mixed, d), InGroup(bank.technical[k].1))| <= 1
  {
    var g := bank.technical;
    var p := InGroup(g[k].1);
    var tech := PerGroup(g, d, 1);
    var b := Take(AtLevel(bank.behavioral, d), 1);
    var s := Take(AtLevel(bank.systemDesign, d), 1);
    assert Candidates(bank, Mixed, d) == tech + b + s;
    assert |Filter(tech, p)| <= 1 by {
      DisjointApart(bank, k);
      PerGroupBound(g, |g|, d, 1, k);
      assert g[..|g|] == g;
    }
    assert Filter(b, p) == [] && Filter(s, p) == [] by {
      ListsOutsideSubcategory(bank, d, k);
    }
    FilterConcat(tech + b, s, p);
    FilterConcat(tech, b, p);
  }

  /** A mixed interview asks at most one question of any technical subcategory. */
  lemma MixedAtMostOnePerSubcategory(bank: QuestionBank, d: string, draws: seq<nat>, k: nat)
    requires Disjoint(bank) && k < |bank.technical|
    ensures |Filter(Selection(bank, Mixed, d, draws), InGroup(bank.technical[k].1))| <= 1
  {
    MixedCandidatesPerSubcategory(bank, d, k);
    SelectionFilterBound(bank, Mixed, d, draws, InGroup(bank.technical[k].1));
  }

  /** The technical part of a mixed selection holds nothing from the two lists. */
  lemma TechnicalOutsideLists(bank: QuestionBank, d: string)
    requires Disjoint(bank)
    ensures forall q :: q in PerGroup(bank.technical, d, 1) ==> q !in bank.behavioral && q !in bank.systemDesign
  {
    var g := bank.technical;
    PerGroupMembers(g, d, 1);
    forall q | q in PerGroup(g, d, 1) ensures q !in bank.behavioral && q !in bank.systemDesign {
      var j :| 0 <= j < |g| && q in g[j].1;
    }
  }

  lemma MixedCandidatesPerList(bank: QuestionBank, d: string, list: seq<Question>)
    requires Disjoint(bank)
    requires list == bank.behavioral || list == bank.systemDesign
    ensures |Filter(Candidates(bank, Mixed, d), InGroup(list))| <= 1
  {
    var tech := PerGroup(bank.technical, d, 1);
    var b := Take(AtLevel(bank.behavioral, d), 1);
    var s := Take(AtLevel(bank.systemDesign, d), 1);
    var p := InGroup(list);
    assert Candidates(bank, Mixed, d) == tech + b + s;
    assert Filter(tech, p) == [] by {
      TechnicalOutsideLists(bank, d);
      NoneInGroup(tech, list);
    }
    assert |Filter(b, p)| + |Filter(s, p)| <= 1 by {
      TakenFrom(bank.behavioral, d, 1);
      TakenFrom(bank.systemDesign, d, 1);
      if list == bank.behavioral { NoneInGroup(s, list); } else { NoneInGroup(b, list); }
    }
    FilterConcat(tech + b, s, p);
    FilterConcat(tech, b, p);
  }

  /** A mixed interview asks at most one behavioral and at most one system-design question. */
  lemma MixedAtMostOnePerList(bank: QuestionBank, d: string, draws: seq<nat>)
    requires Disjoint(bank)
    ensures |Filter(Selection(bank, Mixed, d, draws), InGroup(bank.behavioral))| <= 1
    ensures |Filter(Selection(bank, Mixed, d, draws), InGroup(bank.systemDesign))| <= 1
  {
    MixedCandidatesPerList(bank, d, bank.behavioral);
    MixedCandidatesPerList(bank, d, bank.systemDesign);
    SelectionFilterBound(bank, Mixed, d, draws, InGroup(bank.behavioral));
    SelectionFilterBound(bank, Mixed, d, draws, InGroup(bank.systemDesign));
  }

  // ---------------------------------------------------------------------------------------
  // Rule-based answer analysis
  // ---------------------------------------------------------------------------------------

  /** The fixed remarks of the analysers, and remarks written by the coach model. */
  datatype Remark =
    | GoodTechnicalKnowledge | ComprehensiveAnswer | CoveredKeyConcepts(keywords: seq<string>)
    | MoreTechnicalDetail | MoreDetailedExplanation | ConsiderMentioning(keywords: seq<string>)
    | GoodStarStructure | RelevantCompetencies | DetailedExample
    | UseStarMethod | FocusOnCompetencies
    | GoodDesignPrinciples | RelevantTechnicalConcepts | ComprehensiveDesign
    | ConsiderScalability | MoreTechnicalComponents
    | CoachRemark(text: string)

  /** One of the three stock practice tips of an analyser, or a line coming from a coach model. */
  datatype Suggestion = PracticeTip(kind: InterviewType, index: nat) | CoachRecommendation(text: string) | CoachTip(text: string)

  /** What the analysis records besides the score, depending on the interview type. */
  datatype KeywordAnalysis =
    | NoAnalysis
    | Coverage(expected: seq<string>, found: seq<string>, missing: seq<string>, coverage: real)
    | StarMethod(components: seq<bool>, starScore: real, expected: seq<string>, found: seq<string>)
    | DesignConcepts(concepts: seq<bool>, conceptScore: real, expected: seq<string>, found: seq<string>)

  datatype Feedback = Feedback(
    overallScore: real,
    strengths: seq<Remark>,
    improvements: seq<Remark>,
    suggestions: seq<Suggestion>,
    analysis: KeywordAnalysis,
    sampleAnswer: string)

  /** `keyword.lower() in answer_lower`. */
  function Mentions(answerLower: string): string -> bool
  {
    (k: string) => Contains(answerLower, Lower(k))
  }

  function FoundKeywords(expected: seq<string>, answer: string): seq<string>
  {
    Filter(expected, Mentions(Lower(answer)))
  }

  function MissingKeywords(expected: seq<string>, answer: string): seq<string>
  {
    Filter(expected, Not(Mentions(Lower(answer))))
  }

  /** The share of expected keywords the answer mentions, in percent. */
  function KeywordScore(expected: seq<string>, answer: string): (r: real)
    ensures 0.0 <= r <= 100.0
  {
    Percent(|FoundKeywords(expected, answer)|, |expected|)
  }

  /** Length score of a technical answer: three points a word up to 20 words, then two, at most 100. */
  function StructureScore(words: nat): (r: real)
    ensures 0.0 <= r <= 100.0
    ensures words <= 20 ==> r == 3.0 * words as real
  {
    if words > 20 then MinReal(100.0, (words * 2) as real) else (words * 3) as real
  }

  function CountTrue(bs: seq<bool>): (r: nat)
    ensures r <= |bs|
  {
    if |bs| == 0 then 0 else CountTrue(bs[..|bs| - 1]) + (if bs[|bs| - 1] then 1 else 0)
  }

  lemma {:induction false} AllTrueCount(bs: seq<bool>)
    requires forall i :: 0 <= i < |bs| ==> bs[i]
    ensures CountTrue(bs) == |bs|
    decreases |bs|
  {
    if |bs| > 0 {
      AllTrueCount(bs[..|bs| - 1]);
    }
  }

  /** `any(word in answer_lower for word in cues)`. */
  predicate AnyCue(answerLower: string, cues: seq<string>)
  {
    exists i :: 0 <= i < |cues| && Contains(answerLower, cues[i])
  }

  /** For each cue group, whether the answer hits one of its words. */
  function CueHits(answerLower: string, groups: seq<seq<string>>): (r: seq<bool>)
    ensures |r| == |groups|
    ensures forall i :: 0 <= i < |groups| ==> (r[i] <==> AnyCue(answerLower, groups[i]))
  {
    seq(|groups|, i requires 0 <= i < |groups| => AnyCue(answerLower, groups[i]))
  }

  /** Situation, task, action and result cues. */
  const StarCues: seq<seq<string>> := [
    ["situation", "when", "time", "once"],
    ["task", "goal", "objective", "needed"],
    ["action", "did", "took", "implemented"],
    ["result", "outcome", "achieved", "learned"]]

  /** Scalability, database, caching, load-balancing and security cues. */
  const DesignCues: seq<seq<string>> := [
    ["scale", "scalable", "load", "traffic"],
    ["database", "db", "storage", "persistence"],
    ["cache", "caching", "redis", "memcached"],
    ["load balancer", "distribute", "multiple servers"],
    ["security", "auth", "encryption", "secure"]]

  /** The share of cue groups the answer hits, in percent. */
  function CueScore(answerLower: string, groups: seq<seq<string>>): (r: real)
    ensures 0.0 <= r <= 100.0
  {
    Percent(CountTrue(CueHits(answerLower, groups)), |groups|)
  }

  function Practice(kind: InterviewType): seq<Suggestion>
  {
    [PracticeTip(kind, 0), PracticeTip(kind, 1), PracticeTip(kind, 2)]
  }

  /** Keyword coverage weighs 0.6 and answer length 0.4. */
  function TechnicalScore(q: Question, answer: string): (r: real)
    ensures 0.0 <= r <= 100.0
  {
    0.6 * KeywordScore(q.expectedKeywords, answer) + 0.4 * StructureScore(WordCount(answer))
  }

  function TechnicalFeedback(q: Question, answer: string): (f: Feedback)
    ensures 0.0 <= f.overallScore <= 100.0
  {
    var found := FoundKeywords(q.expectedKeywords, answer);
    var missing := MissingKeywords(q.expectedKeywords, answer);
    var kw := KeywordScore(q.expectedKeywords, answer);
    var words := WordCount(answer);
    Feedback(
      TechnicalScore(q, answer),
      When(kw > 70.0, GoodTechnicalKnowledge) + When(words > 30, ComprehensiveAnswer)
        + When(|found| > 0, CoveredKeyConcepts(found)),
      When(kw < 50.0, MoreTechnicalDetail) + When(words < 20, MoreDetailedExplanation)
        + When(|missing| > 0, ConsiderMentioning(missing)),
      Practice(Technical),
      Coverage(q.expectedKeywords, found, missing, kw),
      q.sampleAnswer)
  }

  /** STAR structure weighs 0.6 and keyword coverage 0.4. */
  function BehavioralScore(q: Question, answer: string): (r: real)
    ensures 0.0 <= r <= 100.0
  {
    0.6 * CueScore(Lower(answer), StarCues) + 0.4 * KeywordScore(q.expectedKeywords, answer)
  }

  function BehavioralFeedback(q: Question, answer: string): (f: Feedback)
    ensures 0.0 <= f.overallScore <= 100.0
  {
    var al := Lower(answer);
    var star := CueScore(al, StarCues);
    var kw := KeywordScore(q.expectedKeywords, answer);
    Feedback(
      BehavioralScore(q, answer),
      When(star > 70.0, GoodStarStructure) + When(kw > 60.0, RelevantCompetencies)
        + When(WordCount(answer) > 50, DetailedExample),
      When(star < 50.0, UseStarMethod) + When(kw < 40.0, FocusOnCompetencies),
      Practice(Behavioral),
      StarMethod(CueHits(al, StarCues), star, q.expectedKeywords, FoundKeywords(q.expectedKeywords, answer)),
      q.sampleAnswer)
  }

  /** Design concepts weigh 0.6 and keyword coverage 0.4. */
  function SystemDesignScore(q: Question, answer: string): (r: real)
    ensures 0.0 <= r <= 100.0
  {
    0.6 * CueScore(Lower(answer), DesignCues) + 0.4 * KeywordScore(q.expectedKeywords, answer)
  }

  function SystemDesignFeedback(q: Question, answer: string): (f: Feedback)
    ensures 0.0 <= f.overallScore <= 100.0
  {
    var al := Lower(answer);
    var concepts := CueScore(al, DesignCues);
    var kw := KeywordScore(q.expectedKeywords, answer);
    Feedback(
      SystemDesignScore(q, answer),
      When(concepts > 70.0, GoodDesignPrinciples) + When(kw > 60.0, RelevantTechnicalConcepts)
        + When(WordCount(answer) > 100, ComprehensiveDesign),
      When(concepts < 50.0, ConsiderScalability) + When(kw < 40.0, MoreTechnicalComponents),
      Practice(SystemDesign),
      DesignConcepts(CueHits(al, DesignCues), concepts, q.expectedKeywords, FoundKeywords(q.expectedKeywords, answer)),
      q.sampleAnswer)
  }

  /** The feedback skeleton, left as it is for an interview type without an analyser. */
  function BlankFeedback(q: Question): Feedback
  {
    Feedback(0.0, [], [], [], NoAnalysis, q.sampleAnswer)
  }

  function BaselineFeedback(q: Question, answer: string, kind: InterviewType): (f: Feedback)
    ensures 0.0 <= f.overallScore <= 100.0
    ensures f.sampleAnswer == q.sampleAnswer
    ensures kind.Mixed? || kind.Unsupported? ==> f == BlankFeedback(q)
  {
    match kind
    case Technical => TechnicalFeedback(q, answer)
    case Behavioral => BehavioralFeedback(q, answer)
    case SystemDesign => SystemDesignFeedback(q, answer)
    case _ => BlankFeedback(q)
  }

  /** Found and missing keywords split the expected ones, by whether the answer mentions them. */
  lemma KeywordsPartition(expected: seq<string>, answer: string)
    ensures multiset(FoundKeywords(expected, answer)) + multiset(MissingKeywords(expected, answer))
         == multiset(expected)
    ensures forall k :: k in FoundKeywords(expected, answer) <==>
      k in expected && Contains(Lower(answer), Lower(k))
    ensures forall k :: k in MissingKeywords(expected, answer) <==>
      k in expected && !Contains(Lower(answer), Lower(k))
  {
    var m := Mentions(Lower(answer));
    FilterPartition(expected, m);
    FilterMembers(expected, m);
    FilterMembers(expected, Not(m));
  }

  /** An answer that mentions every expected keyword scores at least 60 and earns the knowledge remark. */
  lemma FullCoverageTechnical(q: Question, answer: string)
    requires |q.expectedKeywords| > 0
    requires forall i :: 0 <= i < |q.expectedKeywords| ==>
      Contains(Lower(answer), Lower(q.expectedKeywords[i]))
    ensures TechnicalScore(q, answer) >= 60.0
    ensures GoodTechnicalKnowledge in TechnicalFeedback(q, answer).strengths
    ensures MissingKeywords(q.expectedKeywords, answer) == []
  {
    FilterAll(q.expectedKeywords, Mentions(Lower(answer)));
    FilterNone(q.expectedKeywords, Not(Mentions(Lower(answer))));
    assert KeywordScore(q.expectedKeywords, answer) == 100.0;
  }

  lemma EmptyContainsNothing(sub: string)
    requires |sub| > 0
    ensures !Contains("", sub)
  {
  }

  /** No non-empty keyword is mentioned by an empty answer. */
  lemma EmptyAnswerKeywords(expected: seq<string>)
    requires forall i :: 0 <= i < |expected| ==> |expected[i]| > 0
    ensures FoundKeywords(expected, "") == []
    ensures MissingKeywords(expected, "") == expected
  {
    var m := Mentions(Lower(""));
    assert Lower("") == "";
    forall i | 0 <= i < |expected| ensures !m(expected[i]) {
      EmptyContainsNothing(Lower(expected[i]));
    }
    FilterNone(expected, m);
    FilterAll(expected, Not(m));
  }

  /** An empty answer to a question whose keywords are all non-empty scores 0. */
  lemma EmptyTechnicalScore(q: Question)
    requires forall i :: 0 <= i < |q.expectedKeywords| ==> |q.expectedKeywords[i]| > 0
    ensures TechnicalScore(q, "") == 0.0
  {
    EmptyAnswerKeywords(q.expectedKeywords);
    assert WordCount("") == 0;
  }

  /** An empty answer is asked for more detail, a longer explanation and every keyword. */
  lemma EmptyTechnicalImprovements(q: Question)
    requires forall i :: 0 <= i < |q.expectedKeywords| ==> |q.expectedKeywords[i]| > 0
    requires |q.expectedKeywords| > 0
    ensures TechnicalFeedback(q, "").improvements
         == [MoreTechnicalDetail, MoreDetailedExplanation, ConsiderMentioning(q.expectedKeywords)]
  {
    TechnicalImprovementsUnfold(q, "");
    EmptyAnswerImprovements(q.expectedKeywords);
  }

  /** The three improvement tests all pass on an empty answer. */
  lemma EmptyAnswerImprovements(expected: seq<string>)
    requires forall i :: 0 <= i < |expected| ==> |expected[i]| > 0
    requires |expected| > 0
    ensures When(KeywordScore(expected, "") < 50.0, MoreTechnicalDetail)
          + When(WordCount("") < 20, MoreDetailedExplanation)
          + When(|MissingKeywords(expected, "")| > 0, ConsiderMentioning(MissingKeywords(expected, "")))
         == [MoreTechnicalDetail, MoreDetailedExplanation, ConsiderMentioning(expected)]
  {
    EmptyAnswerKeywords(expected);
    assert KeywordScore(expected, "") == 0.0;
    assert WordCount("") == 0;
  }

  lemma TechnicalImprovementsUnfold(q: Question, answer: string)
    ensures TechnicalFeedback(q, answer).improvements
         == When(KeywordScore(q.expectedKeywords, answer) < 50.0, MoreTechnicalDetail)
          + When(WordCount(answer) < 20, MoreDetailedExplanation)
          + When(|MissingKeywords(q.expectedKeywords, answer)| > 0,
               ConsiderMentioning(MissingKeywords(q.expectedKeywords, answer)))
  {
  }

  /** A behavioral answer that hits all four STAR groups scores at least 60 and earns the STAR remark. */
  lemma FullStarBehavioral(q: Question, answer: string)
    requires forall i :: 0 <= i < |StarCues| ==> AnyCue(Lower(answer), StarCues[i])
    ensures BehavioralScore(q, answer) >= 60.0
    ensures GoodStarStructure in BehavioralFeedback(q, answer).strengths
  {
    AllTrueCount(CueHits(Lower(answer), StarCues));
  }

  // ---------------------------------------------------------------------------------------
  // Coach enrichment
  // ---------------------------------------------------------------------------------------

  /** A key of the coach's JSON reply: missing, present with the expected type, or unusable. */
  datatype Field<T> = Absent | Present(value: T) | Malformed

  /** The coach model's reply parsed as a JSON object, or no usable reply at all. */
  datatype CoachReply =
    | NoReply
    | Reply(score: Field<real>, strengths: Field<seq<string>>, improvements: Field<seq<string>>,
            recommendation: Option<string>)

  function CoachRemarks(xs: seq<string>): (r: seq<Remark>)
    ensures |r| == |xs|
    ensures forall i :: 0 <= i < |xs| ==> r[i] == CoachRemark(xs[i])
  {
    seq(|xs|, i requires 0 <= i < |xs| => CoachRemark(xs[i]))
  }

  /** `list(set(a + b))`, in first-occurrence order. */
  function Union(a: seq<Remark>, b: seq<Remark>): (r: seq<Remark>)
    ensures Distinct(r)
    ensures forall x :: x in r <==> x in a || x in b
  {
    Dedup(a + b)
  }

  /**
   * Applies the coach's reply key by key, in the order score, strengths, improvements,
   * recommendation; the first key of the wrong type ends the merge and keeps what was
   * already applied. The score can only rise.
   */
  function MergeCoach(f: Feedback, reply: CoachReply): (r: Feedback)
    ensures r.overallScore >= f.overallScore
    ensures r.overallScore == (if reply.Reply? && reply.score.Present?
                               then MaxReal(f.overallScore, reply.score.value) else f.overallScore)
    ensures r.analysis == f.analysis && r.sampleAnswer == f.sampleAnswer
    ensures forall x :: x in f.strengths ==> x in r.strengths
    ensures forall x :: x in f.improvements ==> x in r.improvements
    ensures f.suggestions <= r.suggestions && |r.suggestions| <= |f.suggestions| + 1
    ensures reply.NoReply? || reply.score.Malformed? ==> r == f
  {
    match reply
    case NoReply => f
    case Reply(score, strengths, improvements, recommendation) =>
      if score.Malformed? then f
      else
        var f1 := if score.Present? then f.(overallScore := MaxReal(f.overallScore, score.value)) else f;
        if strengths.Malformed? then f1
        else
          var f2 := if strengths.Present? then f1.(strengths := Union(f1.strengths, CoachRemarks(strengths.value))) else f1;
          if improvements.Malformed? then f2
          else
            var f3 := if improvements.Present?
              then f2.(improvements := Union(f2.improvements, CoachRemarks(improvements.value))) else f2;
            if recommendation.Some? then f3.(suggestions := f3.suggestions + [CoachRecommendation(recommendation.value)])
            else f3
  }

  /** A reply without a malformed key adds all its remarks and its recommendation. */
  lemma CoachMergeComplete(f: Feedback, reply: CoachReply)
    requires reply.Reply? && !reply.score.Malformed? && !reply.strengths.Malformed? && !reply.improvements.Malformed?
    ensures var r := MergeCoach(f, reply);
      (forall x :: x in r.strengths <==>
         (x in f.strengths || (reply.strengths.Present? && x in CoachRemarks(reply.strengths.value))))
      && (forall x :: x in r.improvements <==>
         (x in f.improvements || (reply.improvements.Present? && x in CoachRemarks(reply.improvements.value))))
      && r.suggestions == f.suggestions
         + (if reply.recommendation.Some? then [CoachRecommendation(reply.recommendation.value)] else [])
  {
  }

  /** A malformed strengths key keeps the score update but nothing after it. */
  lemma CoachMergeStopsAtStrengths(f: Feedback, reply: CoachReply)
    requires reply.Reply? && !reply.score.Malformed? && reply.strengths.Malformed?
    ensures var r := MergeCoach(f, reply);
      r.strengths == f.strengths && r.improvements == f.improvements && r.suggestions == f.suggestions
  {
  }

  /** The second coach's one-line tip, appended stripped when it is not empty. */
  function AddTip(f: Feedback, tip: Option<string>): (r: Feedback)
    ensures r.(suggestions := f.suggestions) == f
    ensures r.suggestions == f.suggestions
      + (if tip.Some? && tip.value != "" then [CoachTip(Strip(tip.value))] else [])
  {
    if tip.Some? && tip.value != "" then f.(suggestions := f.suggestions + [CoachTip(Strip(tip.value))]) else f
  }

  /** The feedback stored for one answer: the analyser's, then the coach's, then the tip. */
  function AnswerFeedback(q: Question, answer: string, kind: InterviewType, reply: CoachReply, tip: Option<string>): Feedback
  {
    AddTip(MergeCoach(BaselineFeedback(q, answer, kind), reply), tip)
  }

  /** The stored score is the analyser's, raised to the coach's score when that is higher. */
  lemma AnswerScoreBounds(q: Question, answer: string, kind: InterviewType, reply: CoachReply, tip: Option<string>)
    requires reply.Reply? && reply.score.Present? ==> reply.score.value <= 100.0
    ensures var f := AnswerFeedback(q, answer, kind, reply, tip);
      BaselineFeedback(q, answer, kind).overallScore <= f.overallScore <= 100.0
  {
    var b := BaselineFeedback(q, answer, kind);
    var m := MergeCoach(b, reply);
    assert b.overallScore <= m.overallScore <= 100.0;
    assert AddTip(m, tip).overallScore == m.overallScore;
  }

  // ---------------------------------------------------------------------------------------
  // Interview sessions
  // ---------------------------------------------------------------------------------------

  datatype AnswerRecord = AnswerRecord(answer: string, timestamp: int)

  datatype Session = Session(
    userId: string,
    kind: InterviewType,
    difficulty: string,
    startTime: int,
    questions: seq<Question>,
    current: nat,
    answers: Dict<AnswerRecord>,
    feedback: Dict<Feedback>,
    interviewId: string,
    endTime: Option<int>)

  function Ids(qs: seq<Question>): (r: seq<string>)
    ensures |r| == |qs|
    ensures forall i :: 0 <= i < |qs| ==> r[i] == qs[i].id
  {
    seq(|qs|, i requires 0 <= i < |qs| => qs[i].id)
  }

  /**
   * The position never passes the end; answers and feedback are keyed by the ids of the
   * questions asked so far, in the order they were first asked; a finished session has
   * asked every question.
   */
  predicate WellFormed(s: Session)
  {
    s.current <= |s.questions|
    && Keys(s.answers) == Dedup(Ids(s.questions[..s.current]))
    && Keys(s.feedback) == Keys(s.answers)
    && (s.endTime.Some? ==> s.current == |s.questions|)
  }

  function NewSession(userId: string, kind: InterviewType, difficulty: string, now: int, qs: seq<Question>): (s: Session)
    ensures WellFormed(s) && s.current == 0 && s.endTime.None?
  {
    assert Ids(qs[..0]) == [];
    Session(userId, kind, difficulty, now, qs, 0, [], [], "interview_" + userId + "_" + IntToString(now), None)
  }

  /** Records the answer and the feedback under the current question's id and moves on. */
  function Answered(s: Session, answer: string, now: int, fb: Feedback): Session
    requires s.current < |s.questions|
  {
    var id := s.questions[s.current].id;
    s.(answers := Put(s.answers, id, AnswerRecord(answer, now)),
       feedback := Put(s.feedback, id, fb),
       current := s.current + 1)
  }

  /** Answering keeps a session well formed. */
  lemma AnsweredWellFormed(s: Session, answer: string, now: int, fb: Feedback)
    requires WellFormed(s) && s.current < |s.questions|
    ensures WellFormed(Answered(s, answer, now, fb))
  {
    var c := s.current;
    var id := s.questions[c].id;
    assert Ids(s.questions[..c + 1]) == Ids(s.questions[..c]) + [id];
    DedupSnoc(Ids(s.questions[..c]), id);
    PutKeys(s.answers, id, AnswerRecord(answer, now));
    PutKeys(s.feedback, id, fb);
  }

  /** Answering stores exactly the new answer and feedback under the current question's id. */
  lemma AnsweredStores(s: Session, answer: string, now: int, fb: Feedback, k: string)
    requires s.current < |s.questions|
    ensures var t := Answered(s, answer, now, fb);
      var id := s.questions[s.current].id;
      Get(t.answers, k) == (if k == id then Some(AnswerRecord(answer, now)) else Get(s.answers, k))
      && Get(t.feedback, k) == (if k == id then Some(fb) else Get(s.feedback, k))
  {
    var id := s.questions[s.current].id;
    PutGet(s.answers, id, AnswerRecord(answer, now), k);
    PutGet(s.feedback, id, fb, k);
  }

  /** Progress after `c` of `n` questions, in percent. */
  function Progress(c: nat, n: nat): (r: real)
    requires n > 0
    ensures 0 < c < n ==> 0.0 < r < 100.0
  {
    (c as real / n as real) * 100.0
  }

  // ---------------------------------------------------------------------------------------
  // The final report
  // ---------------------------------------------------------------------------------------

  function FeedbackScores(fb: Dict<Feedback>): (r: seq<real>)
    ensures |r| == |fb|
    ensures forall i :: 0 <= i < |fb| ==> r[i] == fb[i].1.overallScore
  {
    seq(|fb|, i requires 0 <= i < |fb| => fb[i].1.overallScore)
  }

  /** The average of the per-question scores, or 0 when nothing was answered. */
  function OverallScore(s: Session): real
  {
    Mean(FeedbackScores(s.feedback))
  }

  lemma OverallScoreBounds(s: Session, lo: real, hi: real)
    requires |s.feedback| > 0
    requires forall i :: 0 <= i < |s.feedback| ==> lo <= s.feedback[i].1.overallScore <= hi
    ensures lo <= OverallScore(s) <= hi
  {
    MeanBounds(FeedbackScores(s.feedback), lo, hi);
  }

  datatype QuestionScore = QuestionScore(questionId: string, question: string, score: real, category: string)

  datatype DetailedEntry = DetailedEntry(
    number: nat, question: string, category: string, score: real,
    strengths: seq<Remark>, improvements: seq<Remark>, suggestions: seq<Suggestion>)

  datatype FinalReport = FinalReport(
    interviewType: string,
    difficulty: string,
    totalQuestions: nat,
    overallScore: real,
    durationMinutes: int,
    questionScores: seq<QuestionScore>,
    categoryScores: Dict<real>,
    strengths: seq<Remark>,
    improvements: seq<Remark>,
    detailed: seq<DetailedEntry>,
    aiSummary: Option<string>)

  function ScoreOf(fb: Dict<Feedback>, id: string): real
  {
    match Get(fb, id)
    case Some(f) => f.overallScore
    case None => 0.0
  }

  /** The i-th answered id, paired with the i-th question of the session. */
  function QuestionScores(s: Session): (r: seq<QuestionScore>)
    requires |s.answers| <= |s.questions|
    ensures |r| == |s.answers|
    ensures forall i :: 0 <= i < |r| ==> r[i].questionId == s.answers[i].0 && r[i].category == CategoryOf(s.questions[i])
  {
    seq(|s.answers|, i requires 0 <= i < |s.answers| =>
      QuestionScore(s.answers[i].0, s.questions[i].text, ScoreOf(s.feedback, s.answers[i].0), CategoryOf(s.questions[i])))
  }

  /** `(category, score)` for each answered question, in question order. */
  function CategoryEntries(qs: seq<Question>, fb: Dict<Feedback>): seq<(string, real)>
  {
    if |qs| == 0 then []
    else
      var q := qs[|qs| - 1];
      CategoryEntries(qs[..|qs| - 1], fb) + (if Get(fb, q.id).Some? then [(CategoryOf(q), ScoreOf(fb, q.id))] else [])
  }

  method CategoryScores(qs: seq<Question>, fb: Dict<Feedback>) returns (r: Dict<real>)
    ensures r == MeansOf(Groups(CategoryEntries(qs, fb)))
  {
    var g: Dict<seq<real>> := [];
    var i := 0;
    while i < |qs|
      invariant 0 <= i <= |qs|
      invariant g == Groups(CategoryEntries(qs[..i], fb))
    {
      assert qs[..i + 1][..i] == qs[..i];
      var q := qs[i];
      ghost var es := CategoryEntries(qs[..i], fb);
      if Get(fb, q.id).Some? {
        var c, v := CategoryOf(q), ScoreOf(fb, q.id);
        assert CategoryEntries(qs[..i + 1], fb) == es + [(c, v)];
        GroupsStep(es, (c, v));
        g := Put(g, c, GetOr(g, c, []) + [v]);
      } else {
        assert CategoryEntries(qs[..i + 1], fb) == es + [];
        assert es + [] == es;
      }
      i := i + 1;
    }
    assert qs[..|qs|] == qs;
    r := AverageEach(g);
  }

  lemma GroupsStep(es: seq<(string, real)>, e: (string, real))
    ensures Groups(es + [e]) == Put(Groups(es), e.0, GetOr(Groups(es), e.0, []) + [e.1])
  {
    assert (es + [e])[..|es|] == es;
  }

  lemma {:induction false} CategoryEntriesWithin(qs: seq<Question>, fb: Dict<Feedback>, lo: real, hi: real)
    requires forall i :: 0 <= i < |fb| ==> lo <= fb[i].1.overallScore <= hi
    ensures forall i :: 0 <= i < |CategoryEntries(qs, fb)| ==> lo <= CategoryEntries(qs, fb)[i].1 <= hi
    decreases |qs|
  {
    if |qs| > 0 {
      var q := qs[|qs| - 1];
      CategoryEntriesWithin(qs[..|qs| - 1], fb, lo, hi);
      if Get(fb, q.id).Some? {
        GetEntry(fb, q.id);
      }
    }
  }

  /** Every category average lies within the bounds of the per-question scores. */
  lemma CategoryScoreBounds(qs: seq<Question>, fb: Dict<Feedback>, lo: real, hi: real)
    requires forall i :: 0 <= i < |fb| ==> lo <= fb[i].1.overallScore <= hi
    ensures var r := MeansOf(Groups(CategoryEntries(qs, fb)));
      forall i :: 0 <= i < |r| ==> lo <= r[i].1 <= hi
  {
    CategoryEntriesWithin(qs, fb, lo, hi);
    GroupMeanBounds(CategoryEntries(qs, fb), lo, hi);
  }

  function StrengthLists(fb: Dict<Feedback>): (r: seq<seq<Remark>>)
    ensures |r| == |fb|
  {
    seq(|fb|, i requires 0 <= i < |fb| => fb[i].1.strengths)
  }

  function ImprovementLists(fb: Dict<Feedback>): (r: seq<seq<Remark>>)
    ensures |r| == |fb|
  {
    seq(|fb|, i requires 0 <= i < |fb| => fb[i].1.improvements)
  }

  /** Gathers every remark, counts each, and keeps the five most frequent. */
  method ConsolidateRemarks(lists: seq<seq<Remark>>) returns (r: seq<Remark>)
    ensures r == MostCommon(Flatten(lists), 5)
  {
    var all: seq<Remark> := [];
    var i := 0;
    while i < |lists|
      invariant 0 <= i <= |lists|
      invariant all == Flatten(lists[..i])
    {
      assert lists[..i + 1][..i] == lists[..i];
      all := all + lists[i];
      i := i + 1;
    }
    assert lists[..|lists|] == lists;
    var counts := CountOccurrences(all);
    r := Take(Items(SortDesc(counts, ByCount())), 5);
  }

  /** One entry per answered question, numbered by its position in the interview. */
  function Detailed(qs: seq<Question>, fb: Dict<Feedback>): (r: seq<DetailedEntry>)
    ensures |r| <= |qs|
    ensures forall j :: 0 <= j < |r| ==> 1 <= r[j].number <= |qs| && Get(fb, qs[r[j].number - 1].id).Some?
    ensures forall j, j' :: 0 <= j < j' < |r| ==> r[j].number < r[j'].number
  {
    if |qs| == 0 then []
    else
      var n := |qs|;
      var q := qs[n - 1];
      var init := Detailed(qs[..n - 1], fb);
      assert forall j :: 0 <= j < |init| ==> qs[..n - 1][init[j].number - 1] == qs[init[j].number - 1];
      match Get(fb, q.id)
      case Some(f) =>
        init + [DetailedEntry(n, q.text, CategoryOf(q), f.overallScore, f.strengths, f.improvements, f.suggestions)]
      case None => init
  }

  /** One more question adds its entry, when it has feedback, at the end. */
  lemma DetailedStep(qs: seq<Question>, fb: Dict<Feedback>, i: nat)
    requires i < |qs|
    ensures Detailed(qs[..i + 1], fb) == Detailed(qs[..i], fb) + DetailedEntryOf(qs[i], i + 1, fb)
  {
    assert qs[..i + 1][..i] == qs[..i];
  }

  function DetailedEntryOf(q: Question, n: nat, fb: Dict<Feedback>): seq<DetailedEntry>
  {
    match Get(fb, q.id)
    case Some(f) => [DetailedEntry(n, q.text, CategoryOf(q), f.overallScore, f.strengths, f.improvements, f.suggestions)]
    case None => []
  }

  method ConsolidateDetailed(qs: seq<Question>, fb: Dict<Feedback>) returns (r: seq<DetailedEntry>)
    ensures r == Detailed(qs, fb)
  {
    r := [];
    var i := 0;
    while i < |qs|
      invariant 0 <= i <= |qs|
      invariant r == Detailed(qs[..i], fb)
    {
      DetailedStep(qs, fb, i);
      var q := qs[i];
      match Get(fb, q.id) {
        case Some(f) =>
          r := r + [DetailedEntry(i + 1, q.text, CategoryOf(q), f.overallScore, f.strengths, f.improvements, f.suggestions)];
        case None =>
      }
      i := i + 1;
    }
    assert qs[..|qs|] == qs;
  }

  /** The coach's summary paragraph, kept stripped when it is not blank. */
  function Summary(reply: Option<string>): Option<string>
  {
    if reply.Some? && Strip(reply.value) != "" then Some(Strip(reply.value)) else None
  }

  function FinalReportOf(s: Session, overall: real, summary: Option<string>): FinalReport
    requires WellFormed(s) && s.endTime.Some?
  {
    FinalReport(
      TypeName(s.kind), s.difficulty, |s.questions|, overall,
      DurationMinutes(s.startTime, s.endTime.value),
      QuestionScores(s),
      MeansOf(Groups(CategoryEntries(s.questions, s.feedback))),
      MostCommon(Flatten(StrengthLists(s.feedback)), 5),
      MostCommon(Flatten(ImprovementLists(s.feedback)), 5),
      Detailed(s.questions, s.feedback),
      Summary(summary))
  }

  method BuildFinalReport(s: Session, overall: real, summary: Option<string>) returns (r: FinalReport)
    requires WellFormed(s) && s.endTime.Some?
    ensures r == FinalReportOf(s, overall, summary)
  {
    var categories := CategoryScores(s.questions, s.feedback);
    var strengths := ConsolidateRemarks(StrengthLists(s.feedback));
    var improvements := ConsolidateRemarks(ImprovementLists(s.feedback));
    var detailed := ConsolidateDetailed(s.questions, s.feedback);
    r := FinalReport(
      TypeName(s.kind), s.difficulty, |s.questions|, overall,
      DurationMinutes(s.startTime, s.endTime.value),
      QuestionScores(s), categories, strengths, improvements, detailed, Summary(summary));
  }

  datatype ActionTier = Fundamentals | KeepPracticing | Advanced

  /** The immediate actions by score band, and study resources for technical and behavioral interviews. */
  datatype Recommendations = Recommendations(immediate: ActionTier, resources: Option<InterviewType>)

  function RecommendationsFor(overall: real, kind: InterviewType): (r: Recommendations)
    ensures r.immediate == Fundamentals <==> overall < 60.0
    ensures r.immediate == Advanced <==> overall >= 80.0
    ensures r.resources.Some? <==> kind.Technical? || kind.Behavioral?
    ensures r.resources.Some? ==> r.resources.value == kind
  {
    Recommendations(
      if overall < 60.0 then Fundamentals else if overall < 80.0 then KeepPracticing else Advanced,
      if kind.Technical? || kind.Behavioral? then Some(kind) else None)
  }

  function TierRank(t: ActionTier): nat
  {
    match t
    case Fundamentals => 0
    case KeepPracticing => 1
    case Advanced => 2
  }

  /** A higher score never gets a lower tier of advice. */
  lemma TierMonotone(a: real, b: real, kind: InterviewType)
    requires a <= b
    ensures TierRank(RecommendationsFor(a, kind).immediate) <= TierRank(RecommendationsFor(b, kind).immediate)
  {
  }

  datatype SavedInterview = SavedInterview(
    userId: string, interviewId: string, interviewType: string, difficulty: string,
    startTime: int, endTime: int, overallScore: real)

  datatype StartReply = StartReply(
    sessionId: string, interviewId: string, interviewType: string, difficulty: string,
    totalQuestions: nat, question: Option<Question>, questions: seq<Question>)

  datatype SubmitReply =
    | SessionNotFound
    | NoMoreQuestions
    | NextQuestion(current: nat, total: nat, progress: real, question: Question, feedback: Feedback)
    | Completed(sessionId: string, interviewId: string, overallScore: real, report: FinalReport,
                recommendations: Recommendations)

  /**
   * The session once the answer to its current question is recorded with feedback `fb`:
   * finished, with the clock reading, after the last question.
   */
  function AfterSubmit(s: Session, answer: string, now: int, fb: Feedback): (t: Session)
    requires WellFormed(s) && s.current < |s.questions|
    ensures WellFormed(t) && t.questions == s.questions && t.current == s.current + 1
    ensures t.endTime.None? ==> t.current < |t.questions|
  {
    AnsweredWellFormed(s, answer, now, fb);
    var s1 := Answered(s, answer, now, fb);
    if s1.current < |s1.questions| then s1 else s1.(endTime := Some(now))
  }

  /** The row written when an interview completes. */
  function SavedRecord(s: Session): SavedInterview
    requires s.endTime.Some?
  {
    SavedInterview(s.userId, s.interviewId, TypeName(s.kind), s.difficulty, s.startTime, s.endTime.value, OverallScore(s))
  }

  /** The saved interviews after a submit that left the session `t`. */
  function SavedAfter(saved: seq<SavedInterview>, t: Session): seq<SavedInterview>
  {
    if t.endTime.Some? then saved + [SavedRecord(t)] else saved
  }

  /** What a submit returns once the answer is recorded. */
  function SubmitResult(t: Session, fb: Feedback, summary: Option<string>): SubmitReply
    requires WellFormed(t) && 0 < |t.questions|
    requires t.endTime.None? ==> t.current < |t.questions|
  {
    if t.endTime.None? then
      NextQuestion(t.current, |t.questions|, Progress(t.current, |t.questions|), t.questions[t.current], fb)
    else
      Completed(t.userId, t.interviewId, OverallScore(t), FinalReportOf(t, OverallScore(t), summary),
                RecommendationsFor(OverallScore(t), t.kind))
  }

  /** The feedback on an answer to the session's current question. */
  function CurrentFeedback(s: Session, answer: string, reply: CoachReply, tip: Option<string>): Feedback
    requires s.current < |s.questions|
  {
    AnswerFeedback(s.questions[s.current], answer, s.kind, reply, tip)
  }

  /** Every open session is well formed. */
  ghost predicate AllWellFormed(m: map<string, Session>)
  {
    forall u :: u in m ==> WellFormed(m[u])
  }

  lemma AllWellFormedUpdate(m: map<string, Session>, k: string, t: Session)
    requires AllWellFormed(m) && WellFormed(t)
    ensures AllWellFormed(m[k := t])
  {
  }

  /**
   * Recording an answer with feedback `fb` for `userId`: the table of open sessions, the
   * saved interviews and the reply afterwards.
   */
  function Record(m: map<string, Session>, saved: seq<SavedInterview>, userId: string, answer: string, now: int,
                  fb: Feedback, summary: Option<string>): (map<string, Session>, seq<SavedInterview>, SubmitReply)
    requires userId in m && WellFormed(m[userId]) && m[userId].current < |m[userId].questions|
  {
    var t := AfterSubmit(m[userId], answer, now, fb);
    (m[userId := t], SavedAfter(saved, t), SubmitResult(t, fb, summary))
  }

  /** A submit against the table of open sessions and the saved interviews. */
  function SubmitOn(m: map<string, Session>, saved: seq<SavedInterview>, userId: string, answer: string, now: int,
                    reply: CoachReply, tip: Option<string>, summary: Option<string>)
    : (res: (map<string, Session>, seq<SavedInterview>, SubmitReply))
    requires userId in m ==> WellFormed(m[userId])
    ensures userId !in m ==> res == (m, saved, SessionNotFound)
    ensures userId in m && m[userId].current >= |m[userId].questions| ==> res == (m, saved, NoMoreQuestions)
  {
    if userId !in m then (m, saved, SessionNotFound)
    else if m[userId].current >= |m[userId].questions| then (m, saved, NoMoreQuestions)
    else Record(m, saved, userId, answer, now, CurrentFeedback(m[userId], answer, reply, tip), summary)
  }

  /** A submit keeps every open session well formed. */
  lemma SubmitKeepsWellFormed(m: map<string, Session>, saved: seq<SavedInterview>, userId: string, answer: string,
                              now: int, reply: CoachReply, tip: Option<string>, summary: Option<string>)
    requires AllWellFormed(m)
    ensures AllWellFormed(SubmitOn(m, saved, userId, answer, now, reply, tip, summary).0)
  {
    if userId in m && m[userId].current < |m[userId].questions| {
      var fb := CurrentFeedback(m[userId], answer, reply, tip);
      AllWellFormedUpdate(m, userId, AfterSubmit(m[userId], answer, now, fb));
    }
  }

  /** Recording changes one session only: every other user's session is as it was. */
  lemma {:induction false} RecordTouchesOneSession(m: map<string, Session>, saved: seq<SavedInterview>, userId: string,
                                                   answer: string, now: int, fb: Feedback, summary: Option<string>,
                                                   u: string)
    requires userId in m && WellFormed(m[userId]) && m[userId].current < |m[userId].questions|
    ensures var m' := Record(m, saved, userId, answer, now, fb, summary).0;
      (u in m' <==> u in m) && (u in m && u != userId ==> m'[u] == m[u])
  {
  }

  /** The recorded session moves on by exactly one question of the same list and stays well formed. */
  lemma {:induction false} RecordAdvances(m: map<string, Session>, saved: seq<SavedInterview>, userId: string,
                                          answer: string, now: int, fb: Feedback, summary: Option<string>)
    requires userId in m && WellFormed(m[userId]) && m[userId].current < |m[userId].questions|
    ensures var m' := Record(m, saved, userId, answer, now, fb, summary).0;
      userId in m' && m'[userId].questions == m[userId].questions
      && m'[userId].current == m[userId].current + 1 && WellFormed(m'[userId])
  {
  }

  /**
   * Recording stores the answer and its feedback under the current question's id and leaves
   * the entries of every other id unchanged.
   */
  lemma {:induction false} RecordStoresAnswer(m: map<string, Session>, saved: seq<SavedInterview>, userId: string,
                                              answer: string, now: int, fb: Feedback, summary: Option<string>,
                                              k: string)
    requires userId in m && WellFormed(m[userId]) && m[userId].current < |m[userId].questions|
    ensures var s0 := m[userId];
      var id := s0.questions[s0.current].id;
      var t := Record(m, saved, userId, answer, now, fb, summary).0[userId];
      Get(t.answers, k) == (if k == id then Some(AnswerRecord(answer, now)) else Get(s0.answers, k))
      && Get(t.feedback, k) == (if k == id then Some(fb) else Get(s0.feedback, k))
  {
    AnsweredStores(m[userId], answer, now, fb, k);
  }

  /**
   * The interview completes on the submit that answers its last question: only then is the
   * end time set, the record saved and the final report returned; otherwise the reply
   * carries the next question and the feedback.
   */
  lemma {:induction false} RecordCompletesOnLast(m: map<string, Session>, saved: seq<SavedInterview>, userId: string,
                                                 answer: string, now: int, fb: Feedback, summary: Option<string>)
    requires userId in m && WellFormed(m[userId]) && m[userId].current < |m[userId].questions|
    ensures var s0 := m[userId];
      var last := s0.current + 1 == |s0.questions|;
      var res := Record(m, saved, userId, answer, now, fb, summary);
      var t := res.0[userId];
      (t.endTime.Some? <==> last) && (last ==> t.endTime == Some(now))
      && res.1 == (if last then saved + [SavedRecord(t)] else saved)
      && (res.2.Completed? <==> last)
      && (!last ==> res.2.NextQuestion? && res.2.question == s0.questions[s0.current + 1] && res.2.feedback == fb)
  {
  }

  /** One submit on a session that still has a question to ask, given the answer's feedback. */
  method Submit(s0: Session, answer: string, now: int, fb: Feedback, summary: Option<string>)
    returns (t: Session, r: SubmitReply)
    requires WellFormed(s0) && s0.current < |s0.questions|
    ensures t == AfterSubmit(s0, answer, now, fb)
    ensures r == SubmitResult(t, fb, summary)
  {
    var s1 := Answered(s0, answer, now, fb);
    AnsweredWellFormed(s0, answer, now, fb);
    if s1.current < |s1.questions| {
      t := s1;
      r := NextQuestion(s1.current, |s1.questions|, Progress(s1.current, |s1.questions|),
                        s1.questions[s1.current], fb);
    } else {
      t := s1.(endTime := Some(now));
      var overall := OverallScore(t);
      var report := BuildFinalReport(t, overall, summary);
      r := Completed(t.userId, t.interviewId, overall, report, RecommendationsFor(overall, t.kind));
    }
  }

  /** `submit_answer` on the session table: the error replies, or the answer recorded. */
  method SubmitTo(m: map<string, Session>, saved: seq<SavedInterview>, userId: string, answer: string, now: int,
                  reply: CoachReply, tip: Option<string>, summary: Option<string>)
    returns (m': map<string, Session>, saved': seq<SavedInterview>, r: SubmitReply)
    requires userId in m ==> WellFormed(m[userId])
    ensures (m', saved', r) == SubmitOn(m, saved, userId, answer, now, reply, tip, summary)
  {
    if userId !in m {
      return m, saved, SessionNotFound;
    }
    var s0 := m[userId];
    if s0.current >= |s0.questions| {
      return m, saved, NoMoreQuestions;
    }
    var fb := AnswerFeedback(s0.questions[s0.current], answer, s0.kind, reply, tip);
    var t;
    t, r := Submit(s0, answer, now, fb, summary);
    m' := m[userId := t];
    saved' := SavedAfter(saved, t);
  }

  // ---------------------------------------------------------------------------------------
  // Insights over saved interviews
  // ---------------------------------------------------------------------------------------

  datatype Trend = Improving | Stable

  datatype Focus = StartWithTechnical | ImproveType(kind: string) | PracticeType(kind: string) | AdvancedPreparation

  datatype Insights = Insights(
    total: nat, average: real, best: real, latest: real, byType: Dict<real>, trend: Trend, focus: Focus)

  /** The position of the first lowest value (`min(keys, key=...)`). */
  function LowestIndex(d: Dict<real>): (i: nat)
    requires |d| > 0
    ensures i < |d|
    ensures forall j :: 0 <= j < |d| ==> d[i].1 <= d[j].1
    ensures forall j :: 0 <= j < i ==> d[j].1 > d[i].1
  {
    if |d| == 1 then 0
    else
      var i := LowestIndex(d[..|d| - 1]);
      assert forall j :: 0 <= j < |d| - 1 ==> d[..|d| - 1][j] == d[j];
      if d[|d| - 1].1 < d[i].1 then |d| - 1 else i
  }

  /** Advice about the weakest interview type, by its average. */
  function RecommendedFocus(byType: Dict<real>): (r: Focus)
    ensures |byType| == 0 <==> r == StartWithTechnical
    ensures |byType| > 0 ==>
      var i := LowestIndex(byType);
      r == if byType[i].1 < 60.0 then ImproveType(byType[i].0)
           else if byType[i].1 < 80.0 then PracticeType(byType[i].0)
           else AdvancedPreparation
  {
    if |byType| == 0 then StartWithTechnical
    else
      var i := LowestIndex(byType);
      if byType[i].1 < 60.0 then ImproveType(byType[i].0)
      else if byType[i].1 < 80.0 then PracticeType(byType[i].0)
      else AdvancedPreparation
  }

  function ForUser(userId: string): SavedInterview -> bool
  {
    (e: SavedInterview) => e.userId == userId
  }

  /** A user's saved interviews, newest first. */
  function History(saved: seq<SavedInterview>, userId: string): seq<SavedInterview>
  {
    Reverse(Filter(saved, ForUser(userId)))
  }

  function HistoryScores(h: seq<SavedInterview>): (r: seq<real>)
    ensures |r| == |h|
    ensures forall i :: 0 <= i < |h| ==> r[i] == h[i].overallScore
  {
    seq(|h|, i requires 0 <= i < |h| => h[i].overallScore)
  }

  function TypeEntries(h: seq<SavedInterview>): (r: seq<(string, real)>)
    ensures |r| == |h|
    ensures forall i :: 0 <= i < |h| ==> r[i] == (h[i].interviewType, h[i].overallScore)
  {
    seq(|h|, i requires 0 <= i < |h| => (h[i].interviewType, h[i].overallScore))
  }

  function InsightsOf(h: seq<SavedInterview>): Insights
    requires |h| > 0
  {
    var scores := HistoryScores(h);
    var byType := MeansOf(Groups(TypeEntries(h)));
    Insights(|h|, Mean(scores), MaxOf(scores), scores[0], byType,
      if |scores| > 1 && scores[0] > scores[|scores| - 1] then Improving else Stable,
      RecommendedFocus(byType))
  }

  /**
   * The average never exceeds the best score; the trend is "improving" exactly when the
   * newest score beats the oldest; scores within bounds give averages within bounds.
   */
  lemma InsightsProperties(h: seq<SavedInterview>, lo: real, hi: real)
    requires |h| > 0
    requires forall i :: 0 <= i < |h| ==> lo <= h[i].overallScore <= hi
    ensures var r := InsightsOf(h);
      r.average <= r.best
      && lo <= r.average <= hi
      && (forall i :: 0 <= i < |r.byType| ==> lo <= r.byType[i].1 <= hi)
      && (r.trend == Improving <==> |h| > 1 && h[0].overallScore > h[|h| - 1].overallScore)
  {
    var scores := HistoryScores(h);
    MeanAtMostMax(scores);
    MeanBounds(scores, lo, hi);
    GroupMeanBounds(TypeEntries(h), lo, hi);
  }

  // ---------------------------------------------------------------------------------------
  // The engine
  // ---------------------------------------------------------------------------------------

  class Engine {
    const bank: QuestionBank
    var sessions: map<string, Session>
    var saved: seq<SavedInterview>

    ghost predicate Valid()
      reads this
    {
      AllWellFormed(sessions)
    }

    constructor (bank: QuestionBank)
      ensures this.bank == bank && sessions == map[] && saved == []
      ensures Valid()
    {
      this.bank := bank;
      sessions := map[];
      saved := [];
    }

    /**
     * Opens (or replaces) the user's session with up to five shuffled questions. An empty
     * user id is replaced by one built from the clock reading `stamp`.
     */
    method StartMockInterview(userId: string, typeName: string, difficulty: string, now: int,
                              stamp: string, draws: seq<nat>) returns (r: StartReply)
      requires Valid()
      modifies this
      ensures Valid()
      ensures var uid := if userId == "" then "user_" + stamp else userId;
        var qs := Selection(bank, ParseType(typeName), difficulty, draws);
        var s := NewSession(uid, ParseType(typeName), difficulty, now, qs);
        sessions == old(sessions)[uid := s]
        && saved == old(saved)
        && r == StartReply(uid, s.interviewId, typeName, difficulty, |qs|,
                           if |qs| > 0 then Some(qs[0]) else None, qs)
    {
      var uid := if userId == "" then "user_" + stamp else userId;
      var kind := ParseType(typeName);
      var qs := SelectQuestions(bank, kind, difficulty, draws);
      var s := NewSession(uid, kind, difficulty, now, qs);
      sessions := sessions[uid := s];
      r := StartReply(uid, s.interviewId, typeName, difficulty, |qs|,
                      if |qs| > 0 then Some(qs[0]) else None, qs);
    }

    /**
     * Scores the answer to the current question, stores answer and feedback, and either
     * returns the next question or completes the interview, saves it and returns the report.
     * `reply`, `tip` and `summary` stand for the coach models' answers.
     */
    method SubmitAnswer(userId: string, answer: string, now: int, reply: CoachReply, tip: Option<string>,
                        summary: Option<string>) returns (r: SubmitReply)
      requires Valid()
      modifies this
      ensures Valid()
      ensures (sessions, saved, r) == SubmitOn(old(sessions), old(saved), userId, answer, now, reply, tip, summary)
    {
      SubmitKeepsWellFormed(sessions, saved, userId, answer, now, reply, tip, summary);
      sessions, saved, r := SubmitTo(sessions, saved, userId, answer, now, reply, tip, summary);
    }

    /** Performance over the user's saved interviews, or `None` when there are none. */
    method InterviewInsights(userId: string) returns (r: Option<Insights>)
      ensures var h := History(saved, userId);
        (r.None? <==> |h| == 0) && (r.Some? ==> r.value == InsightsOf(h))
    {
      var h := History(saved, userId);
      if |h| == 0 {
        return None;
      }
      var scores := HistoryScores(h);
      var byType := GroupMeans(TypeEntries(h));
      var trend := if |scores| > 1 && scores[0] > scores[|scores| - 1] then Improving else Stable;
      r := Some(Insights(|h|, Mean(scores), MaxOf(scores), scores[0], byType, trend, RecommendedFocus(byType)));
    }
  }
}
