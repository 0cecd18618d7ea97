/**
 * The multi-phase skill assessment: a (phase, question) cursor walks the phases of a fixed
 * question bank, each answer adds table-driven increments to per-skill scores, and
 * completion normalises those scores against the largest reachable total and builds a
 * weighted category report with recommendations.
 */
module SkillAssessment {
  import opened Common
  import opened Text

  // ---------------------------------------------------------------------------------------
  // The question bank and the skill categories
  // ---------------------------------------------------------------------------------------

  datatype Kind = Scale | MultipleChoice | Checkbox

  /** A submitted answer: an option index, a list of selected options, or anything else. */
  datatype Answer = Choice(index: int) | Selection(options: seq<string>) | Other

  /**
   * One assessment item: its id, its answer kind and, per skill, the increment that each
   * answer index adds to that skill's score (empty for the interest and experience items).
   */
  datatype Item = Item(id: string, kind: Kind, mapping: Dict<seq<nat>>)

  datatype Phase = Phase(name: string, items: seq<Item>)

  /** The phases in the order the cursor walks them. */
  type Bank = seq<Phase>

  function PhaseNames(b: Bank): (r: seq<string>)
    ensures |r| == |b|
  {
    seq(|b|, p requires 0 <= p < |b| => b[p].name)
  }

  /**
   * A usable bank: at least one phase, distinct phase names (the cursor finds a phase by
   * name), no empty phase, and every mapping with distinct skills and non-empty levels.
   */
  predicate ValidBank(b: Bank)
  {
    |b| > 0
    && Distinct(PhaseNames(b))
    && (forall p :: 0 <= p < |b| ==> |b[p].items| > 0)
    && (forall p, q :: 0 <= p < |b| && 0 <= q < |b[p].items| ==> ValidMapping(b[p].items[q].mapping))
  }

  predicate ValidMapping(m: Dict<seq<nat>>)
  {
    DistinctKeys(m) && forall j :: 0 <= j < |m| ==> |m[j].1| > 0
  }

  /** Every item of the bank, phase after phase. */
  function AllItems(b: Bank): seq<Item>
  {
    if |b| == 0 then [] else AllItems(b[..|b| - 1]) + b[|b| - 1].items
  }

  function Ids(items: seq<Item>): (r: seq<string>)
    ensures |r| == |items|
  {
    seq(|items|, i requires 0 <= i < |items| => items[i].id)
  }

  /** The number of items in all phases. */
  function TotalItems(b: Bank): nat
  {
    |AllItems(b)|
  }

  /** A skill category of the report, with its weight; the description text is left out. */
  datatype Category = Category(name: string, weight: real, skills: seq<string>)

  /** Positive weights and no skill listed twice in one category. */
  predicate ValidCategories(cs: seq<Category>)
  {
    forall c :: 0 <= c < |cs| ==> cs[c].weight > 0.0 && Distinct(cs[c].skills)
  }

  // ---------------------------------------------------------------------------------------
  // Scoring one answer
  // ---------------------------------------------------------------------------------------

  /**
   * The answer index an item reads: the chosen option for scale and multiple-choice items,
   * the number of selections for checkbox items, and 0 for an answer of any other shape.
   */
  function AnswerIndex(kind: Kind, a: Answer): int
  {
    match kind
    case Scale => if a.Choice? then a.index else 0
    case MultipleChoice => if a.Choice? then a.index else 0
    case Checkbox => if a.Selection? then |a.options| else 0
  }

  /** Python's `xs[i]`: a negative index counts from the end; one out of range raises (`None`). */
  function PyIndex(xs: seq<nat>, i: int): (r: Option<nat>)
    ensures r.Some? <==> -|xs| <= i < |xs|
  {
    if 0 <= i < |xs| then Some(xs[i]) else if -|xs| <= i < 0 then Some(xs[|xs| + i]) else None
  }

  /**
   * The increment as the source computes it: the only guard is `index < len(levels)`, so a
   * negative index reads from the end of the list, or raises (`None`) when it is below
   * `-len(levels)`.
   */
  function IncrementAsWritten(levels: seq<nat>, i: int): Option<nat>
  {
    if i < |levels| then PyIndex(levels, i) else Some(0)
  }

  /** The increment an answer index earns: its level when it names one, nothing otherwise. */
  function Increment(levels: seq<nat>, i: int): nat
  {
    if 0 <= i < |levels| then levels[i] else 0
  }

  /** The largest level of a non-empty list (Python's `max`). */
  function MaxLevel(levels: seq<nat>): (r: nat)
    requires |levels| > 0
    ensures forall j :: 0 <= j < |levels| ==> levels[j] <= r
    ensures exists j :: 0 <= j < |levels| && levels[j] == r
  {
    if |levels| == 1 then levels[0]
    else
      var m := MaxLevel(levels[..|levels| - 1]);
      assert forall j :: 0 <= j < |levels| - 1 ==> levels[..|levels| - 1][j] == levels[j];
      if m >= levels[|levels| - 1] then m else levels[|levels| - 1]
  }

  /**
   * As written, the answer -1 earns the top level of every skill and an answer below
   * `-len(levels)` makes the submit raise.
   */
  lemma NegativeAnswerAsWritten()
    ensures IncrementAsWritten([0, 1, 2, 3, 4], -1) == Some(4)
    ensures IncrementAsWritten([0, 1, 2, 3, 4], -6) == None
  {
  }

  /**
   * The corrected increment agrees with the source on every index it was meant for, earns
   * nothing for an index outside the levels, and never exceeds the top level.
   */
  lemma {:induction false} IncrementCorrected(levels: seq<nat>, i: int)
    requires |levels| > 0
    ensures 0 <= i ==> IncrementAsWritten(levels, i) == Some(Increment(levels, i))
    ensures i < 0 ==> Increment(levels, i) == 0
    ensures Increment(levels, i) <= MaxLevel(levels)
  {
  }

  /** One skill's update: its entry (0 when new) plus the increment the answer index earns. */
  function Bump(scores: Dict<int>, skill: string, levels: seq<nat>, i: int): Dict<int>
  {
    Put(scores, skill, GetOr<int>(scores, skill, 0) + Increment(levels, i))
  }

  /** The skill scores after one answer: every skill of the mapping bumped in turn. */
  function UpdatedScores(scores: Dict<int>, mapping: Dict<seq<nat>>, i: int): Dict<int>
    decreases |mapping|
  {
    if |mapping| == 0 then scores
    else Bump(UpdatedScores(scores, mapping[..|mapping| - 1], i), mapping[|mapping| - 1].0, mapping[|mapping| - 1].1, i)
  }

  lemma BumpGet(scores: Dict<int>, skill: string, levels: seq<nat>, i: int, k: string)
    ensures Get(Bump(scores, skill, levels, i), k) ==
      if k == skill then Some(GetOr<int>(scores, skill, 0) + Increment(levels, i)) else Get(scores, k)
  {
    PutGet(scores, skill, GetOr<int>(scores, skill, 0) + Increment(levels, i), k);
  }

  /**
   * After an answer, a skill of the mapping reads its old score (0 when it had none) plus
   * its increment, and every other skill reads as before.
   */
  lemma {:induction false} UpdatedScoresGet(scores: Dict<int>, mapping: Dict<seq<nat>>, i: int, k: string)
    requires DistinctKeys(mapping)
    ensures k !in Keys(mapping) ==> Get(UpdatedScores(scores, mapping, i), k) == Get(scores, k)
    ensures k in Keys(mapping) ==>
      Get(UpdatedScores(scores, mapping, i), k) == Some(GetOr<int>(scores, k, 0) + Increment(GetOr<seq<nat>>(mapping, k, []), i))
    decreases |mapping|
  {
    if |mapping| > 0 {
      var init := mapping[..|mapping| - 1];
      var e := mapping[|mapping| - 1];
      LastKeyFresh(mapping);
      BumpGet(UpdatedScores(scores, init, i), e.0, e.1, i, k);
      GetLast(mapping, k);
      UpdatedScoresGet(scores, init, i, k);
    }
  }

  /** The last binding of a mapping with distinct skills is not among the earlier ones. */
  lemma LastKeyFresh<V>(d: Dict<V>)
    requires |d| > 0 && DistinctKeys(d)
    ensures DistinctKeys(d[..|d| - 1]) && d[|d| - 1].0 !in Keys(d[..|d| - 1])
  {
    assert Keys(d[..|d| - 1]) == Keys(d)[..|d| - 1];
    assert Keys(d)[|d| - 1] == d[|d| - 1].0;
  }

  /** Looking a skill up in a mapping, split at its last binding. */
  lemma GetLast<V>(d: Dict<V>, k: string)
    requires |d| > 0
    ensures var init := d[..|d| - 1];
      (k in Keys(d) <==> k in Keys(init) || k == d[|d| - 1].0)
      && Get(d, k) == if k in Keys(init) then Get(init, k) else if k == d[|d| - 1].0 then Some(d[|d| - 1].1) else None
  {
    assert Keys(d) == Keys(d[..|d| - 1]) + [d[|d| - 1].0];
    assert d == d[..|d| - 1] + [d[|d| - 1]];
    GetSnoc(d[..|d| - 1], d[|d| - 1].0, d[|d| - 1].1, k);
  }

  /** Updating scores keeps their skills distinct. */
  lemma {:induction false} UpdatedScoresDistinct(scores: Dict<int>, mapping: Dict<seq<nat>>, i: int)
    requires DistinctKeys(scores)
    ensures DistinctKeys(UpdatedScores(scores, mapping, i))
    decreases |mapping|
  {
    if |mapping| > 0 {
      var prev := UpdatedScores(scores, mapping[..|mapping| - 1], i);
      UpdatedScoresDistinct(scores, mapping[..|mapping| - 1], i);
      var e := mapping[|mapping| - 1];
      PutDistinct(prev, e.0, GetOr<int>(prev, e.0, 0) + Increment(e.1, i));
    }
  }

  /** `_update_skill_scores`: one pass over the item's mapping. */
  method UpdateSkillScores(scores: Dict<int>, item: Item, a: Answer) returns (r: Dict<int>)
    ensures r == UpdatedScores(scores, item.mapping, AnswerIndex(item.kind, a))
  {
    var i := AnswerIndex(item.kind, a);
    var m := item.mapping;
    r := scores;
    var k := 0;
    while k < |m|
      invariant 0 <= k <= |m|
      invariant r == UpdatedScores(scores, m[..k], i)
    {
      assert m[..k + 1][..k] == m[..k];
      var (skill, levels) := m[k];
      if skill !in Keys(r) {
        GetNone(r, skill);
        PutGet(r, skill, 0, skill);
        PutTwice(r, skill, 0, Increment(levels, i));
        r := Put(r, skill, 0);
      }
      r := Put(r, skill, GetOr<int>(r, skill, 0) + Increment(levels, i));
      k := k + 1;
    }
    assert m[..|m|] == m;
  }

  /** Scores only ever grow from 0, so none is negative. */
  predicate NonNegative(scores: Dict<int>)
  {
    forall j :: 0 <= j < |scores| ==> scores[j].1 >= 0
  }

  lemma {:induction false} BumpNonNegative(scores: Dict<int>, skill: string, levels: seq<nat>, i: int)
    requires NonNegative(scores)
    ensures NonNegative(Bump(scores, skill, levels, i))
  {
    var v: int := GetOr<int>(scores, skill, 0) + Increment(levels, i);
    if Get(scores, skill).Some? {
      GetEntry(scores, skill);
    }
    PutEntries(scores, skill, v);
    var r := Bump(scores, skill, levels, i);
    forall j | 0 <= j < |r|
      ensures r[j].1 >= 0
    {
      if r[j] != (skill, v) {
        var m :| 0 <= m < |scores| && scores[m] == r[j];
      }
    }
  }

  lemma {:induction false} UpdatedScoresNonNegative(scores: Dict<int>, mapping: Dict<seq<nat>>, i: int)
    requires NonNegative(scores)
    ensures NonNegative(UpdatedScores(scores, mapping, i))
    decreases |mapping|
  {
    if |mapping| > 0 {
      var e := mapping[|mapping| - 1];
      UpdatedScoresNonNegative(scores, mapping[..|mapping| - 1], i);
      BumpNonNegative(UpdatedScores(scores, mapping[..|mapping| - 1], i), e.0, e.1, i);
    }
  }

  // ---------------------------------------------------------------------------------------
  // Sessions and the (phase, question) cursor
  // ---------------------------------------------------------------------------------------

  /**
   * An assessment session. `phase` indexes the bank; `endTime` is set when the assessment
   * completes (the source's `status = 'completed'`).
   */
  datatype Session = Session(
    userId: string,
    assessmentId: string,
    startTime: int,
    phase: nat,
    current: nat,
    responses: Dict<Answer>,
    scores: Dict<int>,
    completedPhases: seq<string>,
    endTime: Option<int>)

  /** The cursor points at an item, answers are filed under bank ids, and scores are dicts. */
  predicate WellFormed(b: Bank, s: Session)
  {
    s.phase < |b| && s.current < |b[s.phase].items|
    && DistinctKeys(s.responses)
    && (forall k :: k in Keys(s.responses) ==> k in Ids(AllItems(b)))
    && DistinctKeys(s.scores) && NonNegative(s.scores)
  }

  /** The user id of a session: the given one, or one built from the clock reading `stamp`. */
  function SessionUser(userId: string, stamp: string): (u: string)
    ensures userId != "" ==> u == userId
    ensures userId == "" ==> u == "user_" + stamp && u != ""
  {
    if userId == "" then "user_" + stamp else userId
  }

  function NewSession(userId: string, now: int): (s: Session)
    ensures s.phase == 0 && s.current == 0 && s.endTime.None?
    ensures s.responses == [] && s.scores == [] && s.completedPhases == []
  {
    Session(userId, "assessment_" + userId + "_" + IntToString(now), now, 0, 0, [], [], [], None)
  }

  lemma NewSessionWellFormed(b: Bank, userId: string, now: int)
    requires ValidBank(b)
    ensures WellFormed(b, NewSession(userId, now))
  {
    assert |b[0].items| > 0;
  }

  /** The question the cursor shows, with its phase, its 1-based number and the phase size. */
  datatype QuestionView = QuestionView(item: Item, phase: string, number: nat, totalInPhase: nat)

  function CurrentQuestion(b: Bank, s: Session): (q: Option<QuestionView>)
    ensures q.Some? <==> s.phase < |b| && s.current < |b[s.phase].items|
    ensures q.Some? ==> q.value.item == b[s.phase].items[s.current] && q.value.number == s.current + 1
  {
    if s.phase < |b| && s.current < |b[s.phase].items| then
      Some(QuestionView(b[s.phase].items[s.current], b[s.phase].name, s.current + 1, |b[s.phase].items|))
    else None
  }

  /** `_calculate_progress`; the percentage is not rounded here. */
  datatype Progress = Progress(percentage: real, answered: nat, total: nat, completedPhases: nat, totalPhases: nat)

  function ProgressOf(b: Bank, s: Session): Progress
    requires TotalItems(b) > 0
  {
    var n := TotalItems(b);
    Progress(Percent(|s.responses|, n), |s.responses|, n, |s.completedPhases|, |b|)
  }

  /** Progress is a percentage, and it is 100 exactly when as many ids are answered as the bank holds. */
  lemma ProgressBounds(b: Bank, s: Session)
    requires WellFormed(b, s)
    ensures TotalItems(b) > 0
    ensures 0.0 <= ProgressOf(b, s).percentage <= 100.0
    ensures ProgressOf(b, s).percentage == 100.0 <==> |s.responses| == TotalItems(b)
  {
    TotalItemsPositive(b, s.phase);
    DistinctWithinLength(Keys(s.responses), Ids(AllItems(b)));
    PercentFull(|s.responses|, TotalItems(b));
  }

  /** The items of the phases before `p`, then phase `p`'s. */
  lemma AllItemsPrefix(b: Bank, p: nat)
    requires p < |b|
    ensures AllItems(b[..p + 1]) == AllItems(b[..p]) + b[p].items
  {
    assert b[..p + 1][..p] == b[..p];
  }

  lemma {:induction false} AllItemsLength(b: Bank, p: nat)
    requires p <= |b|
    ensures |AllItems(b[..p])| <= TotalItems(b)
    decreases |b| - p
  {
    if p < |b| {
      AllItemsPrefix(b, p);
      AllItemsLength(b, p + 1);
    } else {
      assert b[..p] == b;
    }
  }

  lemma TotalItemsPositive(b: Bank, p: nat)
    requires p < |b| && |b[p].items| > 0
    ensures TotalItems(b) > 0
  {
    AllItemsPrefix(b, p);
    AllItemsLength(b, p + 1);
  }

  /** How many items come before the cursor, counting the phases already behind it. */
  function Position(b: Bank, s: Session): nat
    requires s.phase < |b|
  {
    |AllItems(b[..s.phase])| + s.current
  }

  /** What one submit does to the session, and whether it completed the assessment. */
  function Advance(b: Bank, s: Session, answer: Answer): (res: (Session, bool))
    requires WellFormed(b, s)
  {
    var item := b[s.phase].items[s.current];
    var t := s.(responses := Put(s.responses, item.id, answer),
                scores := UpdatedScores(s.scores, item.mapping, AnswerIndex(item.kind, answer)));
    if s.current + 1 < |b[s.phase].items| then (t.(current := s.current + 1), false)
    else if s.phase + 1 < |b| then
      (t.(completedPhases := s.completedPhases + [b[s.phase].name], current := 0, phase := s.phase + 1), false)
    else (t.(completedPhases := s.completedPhases + [b[s.phase].name], current := 0), true)
  }

  /**
   * A submit files the answer under the current item's id and updates the scores; the
   * cursor moves to the next item, or to the first item of the next phase with the phase
   * recorded as completed, or after the last phase stays on that phase at item 0.
   */
  lemma AdvanceEffect(b: Bank, s: Session, answer: Answer)
    requires WellFormed(b, s)
    ensures var (t, done) := Advance(b, s, answer);
      var item := b[s.phase].items[s.current];
      var last := s.current + 1 == |b[s.phase].items|;
      t.responses == Put(s.responses, item.id, answer)
      && t.scores == UpdatedScores(s.scores, item.mapping, AnswerIndex(item.kind, answer))
      && t.userId == s.userId && t.assessmentId == s.assessmentId && t.startTime == s.startTime
      && t.endTime == s.endTime
      && (done <==> last && s.phase + 1 == |b|)
      && (!last ==> t.phase == s.phase && t.current == s.current + 1 && t.completedPhases == s.completedPhases)
      && (last ==> t.current == 0 && t.completedPhases == s.completedPhases + [b[s.phase].name])
      && (last && !done ==> t.phase == s.phase + 1)
      && (done ==> t.phase == s.phase)
  {
  }

  /** A submit keeps the session well formed. */
  lemma AdvanceWellFormed(b: Bank, s: Session, answer: Answer)
    requires ValidBank(b) && WellFormed(b, s)
    ensures WellFormed(b, Advance(b, s, answer).0)
  {
    var item := b[s.phase].items[s.current];
    var i := AnswerIndex(item.kind, answer);
    FiledAnswerInBank(b, s, answer);
    UpdatedScoresDistinct(s.scores, item.mapping, i);
    UpdatedScoresNonNegative(s.scores, item.mapping, i);
    AdvanceEffect(b, s, answer);
  }

  /** Filing an answer under the current item's id keeps the answer keys distinct bank ids. */
  lemma FiledAnswerInBank(b: Bank, s: Session, answer: Answer)
    requires WellFormed(b, s)
    ensures var r := Put(s.responses, b[s.phase].items[s.current].id, answer);
      DistinctKeys(r) && forall k :: k in Keys(r) ==> k in Ids(AllItems(b))
  {
    var id := b[s.phase].items[s.current].id;
    PutDistinct(s.responses, id, answer);
    PutKeys(s.responses, id, answer);
    ItemIdInBank(b, s.phase, s.current);
  }

  /** Every item's id is an id of the bank. */
  lemma ItemIdInBank(b: Bank, p: nat, q: nat)
    requires p < |b| && q < |b[p].items|
    ensures b[p].items[q].id in Ids(AllItems(b))
  {
    ItemAt(b, p, q);
    var j := |AllItems(b[..p])| + q;
    assert Ids(AllItems(b))[j] == b[p].items[q].id;
  }

  /** Item `q` of phase `p` sits in the whole bank after the items of the earlier phases. */
  lemma ItemAt(b: Bank, p: nat, q: nat)
    requires p < |b| && q < |b[p].items|
    ensures var j := |AllItems(b[..p])| + q;
      j < TotalItems(b) && AllItems(b)[j] == b[p].items[q]
  {
    AllItemsPrefix(b, p);
    var j := |AllItems(b[..p])| + q;
    assert AllItems(b[..p + 1])[j] == b[p].items[q];
    PrefixItemAt(b, p + 1, j);
  }

  lemma {:induction false} PrefixItemAt(b: Bank, p: nat, j: nat)
    requires p <= |b| && j < |AllItems(b[..p])|
    ensures j < TotalItems(b) && AllItems(b)[j] == AllItems(b[..p])[j]
    decreases |b| - p
  {
    if p < |b| {
      AllItemsPrefix(b, p);
      assert AllItems(b[..p + 1])[j] == AllItems(b[..p])[j];
      PrefixItemAt(b, p + 1, j);
    } else {
      assert b[..p] == b;
    }
  }

  /**
   * The cursor walks the bank item by item: a submit that does not complete moves the
   * position on by one, and the submit that completes is the one made at the last item.
   */
  lemma AdvancePosition(b: Bank, s: Session, answer: Answer)
    requires ValidBank(b) && WellFormed(b, s)
    ensures var (t, done) := Advance(b, s, answer);
      (done <==> Position(b, s) + 1 == TotalItems(b))
      && (!done ==> Position(b, t) == Position(b, s) + 1)
  {
    var (t, done) := Advance(b, s, answer);
    AllItemsPrefix(b, s.phase);
    if s.phase + 1 == |b| {
      assert b[..s.phase + 1] == b;
    } else {
      AllItemsLength(b, s.phase + 2);
      AllItemsPrefix(b, s.phase + 1);
      assert |b[s.phase + 1].items| > 0;
    }
  }

  /**
   * A session answered in order so far: the phases behind the cursor are recorded as
   * completed, and the answered ids are exactly the bank's ids before the cursor.
   */
  predicate OnTrack(b: Bank, s: Session)
  {
    s.phase < |b| && s.endTime.None?
    && s.completedPhases == PhaseNames(b)[..s.phase]
    && Position(b, s) <= TotalItems(b)
    && Keys(s.responses) == Ids(AllItems(b))[..Position(b, s)]
  }

  lemma NewSessionOnTrack(b: Bank, userId: string, now: int)
    requires ValidBank(b)
    ensures OnTrack(b, NewSession(userId, now))
  {
    assert b[..0] == [];
    assert AllItems(b[..0]) == [];
  }

  /** The id at the cursor is the bank's id at the cursor's position. */
  lemma IdAtPosition(b: Bank, s: Session)
    requires WellFormed(b, s)
    ensures Position(b, s) < TotalItems(b)
    ensures Ids(AllItems(b))[Position(b, s)] == b[s.phase].items[s.current].id
  {
    ItemAt(b, s.phase, s.current);
  }

  /** On track with distinct ids, a submit files the id at the cursor as the next answered id. */
  lemma AdvanceKeys(b: Bank, s: Session, answer: Answer)
    requires ValidBank(b) && Distinct(Ids(AllItems(b))) && WellFormed(b, s) && OnTrack(b, s)
    ensures Position(b, s) < TotalItems(b)
    ensures Keys(Advance(b, s, answer).0.responses) == Ids(AllItems(b))[..Position(b, s) + 1]
  {
    var t := Advance(b, s, answer).0;
    var ids := Ids(AllItems(b));
    var pos := Position(b, s);
    var id := b[s.phase].items[s.current].id;
    IdAtPosition(b, s);
    assert id !in ids[..pos] by {
      forall j | 0 <= j < pos ensures ids[..pos][j] != id {
        assert ids[j] != ids[pos];
      }
    }
    PutKeys(s.responses, id, answer);
    assert ids[..pos + 1] == ids[..pos] + [id];
  }

  /**
   * With distinct item ids, a session on track stays on track through every submit but the
   * last, and the last one leaves every phase completed and every id answered.
   */
  lemma AdvanceOnTrack(b: Bank, s: Session, answer: Answer)
    requires ValidBank(b) && Distinct(Ids(AllItems(b))) && WellFormed(b, s) && OnTrack(b, s)
    ensures var (t, done) := Advance(b, s, answer);
      (!done ==> OnTrack(b, t))
      && (done ==> t.completedPhases == PhaseNames(b) && Keys(t.responses) == Ids(AllItems(b)))
  {
    var (t, done) := Advance(b, s, answer);
    var ids := Ids(AllItems(b));
    var pos := Position(b, s);
    AdvancePosition(b, s, answer);
    AdvanceEffect(b, s, answer);
    AdvanceKeys(b, s, answer);
    var last := s.current + 1 == |b[s.phase].items|;
    if last {
      assert PhaseNames(b)[..s.phase + 1] == PhaseNames(b)[..s.phase] + [b[s.phase].name];
      if done {
        assert PhaseNames(b)[..s.phase + 1] == PhaseNames(b);
        assert ids[..pos + 1] == ids;
      }
    }
  }

  /** An assessment completed in order has answered every item: its progress reads 100. */
  lemma CompletedInFull(b: Bank, s: Session, answer: Answer)
    requires ValidBank(b) && Distinct(Ids(AllItems(b))) && WellFormed(b, s) && OnTrack(b, s)
    requires Advance(b, s, answer).1
    ensures ProgressOf(b, Advance(b, s, answer).0).percentage == 100.0
  {
    AdvanceOnTrack(b, s, answer);
    AdvanceWellFormed(b, s, answer);
    var t := Advance(b, s, answer).0;
    ProgressBounds(b, t);
    assert |t.responses| == |Keys(t.responses)|;
  }
}
