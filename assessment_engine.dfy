/**
 * The skill-assessment engine: the table of open sessions keyed by user id, the submit that
 * advances a session and completes it after the last item, and the saved results that the
 * history and the insights read.
 */
module AssessmentEngine {
  import opened Common
  import opened Text
  import opened SkillAssessment
  import opened AssessmentReport

  datatype StartReply = StartReply(
    sessionId: string, assessmentId: string, phase: string, totalPhases: nat, current: nat,
    totalInPhase: nat, question: Option<QuestionView>, progress: Progress)

  datatype SubmitReply =
    | SessionNotFound
    | NextQuestion(sessionId: string, phase: string, current: nat, totalInPhase: nat, progress: Progress,
                   question: Option<QuestionView>, coaching: Option<string>)
    | Completed(sessionId: string, assessmentId: string, finalScores: Dict<real>, report: Report,
                recommendations: Recommendations)

  /** Every open session is well formed for the bank. */
  ghost predicate AllWellFormed(b: Bank, m: map<string, Session>)
  {
    forall u :: u in m ==> WellFormed(b, m[u])
  }

  /** The reply to a start: the first question of the first phase and zero progress. */
  function StartReplyOf(b: Bank, uid: string, s: Session): StartReply
    requires ValidBank(b)
  {
    TotalItemsPositive(b, 0);
    StartReply(uid, s.assessmentId, b[0].name, |b|, 0, |b[0].items|, CurrentQuestion(b, s), ProgressOf(b, s))
  }

  /** The saved row of a completed session. */
  function SavedRow(b: Bank, cats: seq<Category>, uid: string, t: Session, now: int): SavedAssessment
  {
    var final := FinalScores(b, t.scores);
    SavedAssessment(uid, t.assessmentId, t.startTime, now, final, ReportOf(cats, final, t, now))
  }

  /**
   * A submit against the table of open sessions and the saved results. `coaching` stands
   * for the coach model's paragraph on the answer and `tips` for its tip lines at
   * completion.
   */
  function SubmitOn(b: Bank, cats: seq<Category>, catalogue: Dict<seq<string>>, m: map<string, Session>,
                    saved: seq<SavedAssessment>, uid: string, answer: Answer, now: int,
                    coaching: Option<string>, tips: seq<string>)
    : (res: (map<string, Session>, seq<SavedAssessment>, SubmitReply))
    requires ValidBank(b)
    requires uid in m ==> WellFormed(b, m[uid])
    ensures uid !in m ==> res == (m, saved, SessionNotFound)
  {
    if uid !in m then (m, saved, SessionNotFound)
    else
      var (t, done) := Advance(b, m[uid], answer);
      if !done then
        AdvanceWellFormed(b, m[uid], answer);
        TotalItemsPositive(b, t.phase);
        (m[uid := t], saved,
         NextQuestion(uid, b[t.phase].name, t.current, |b[t.phase].items|, ProgressOf(b, t), CurrentQuestion(b, t), coaching))
      else
        var t' := t.(endTime := Some(now));
        var row := SavedRow(b, cats, uid, t', now);
        (m[uid := t'], saved + [row],
         Completed(uid, t'.assessmentId, row.finalScores, row.report, RecommendationsOf(row.finalScores, catalogue, tips)))
  }

  /** A submit keeps every open session well formed. */
  lemma SubmitKeepsWellFormed(b: Bank, cats: seq<Category>, catalogue: Dict<seq<string>>, m: map<string, Session>,
                              saved: seq<SavedAssessment>, uid: string, answer: Answer, now: int,
                              coaching: Option<string>, tips: seq<string>)
    requires ValidBank(b) && AllWellFormed(b, m)
    ensures AllWellFormed(b, SubmitOn(b, cats, catalogue, m, saved, uid, answer, now, coaching, tips).0)
  {
    if uid in m {
      var (t, done) := Advance(b, m[uid], answer);
      AdvanceWellFormed(b, m[uid], answer);
      var stored := if done then t.(endTime := Some(now)) else t;
      assert SubmitOn(b, cats, catalogue, m, saved, uid, answer, now, coaching, tips).0 == m[uid := stored];
      StoreWellFormed(b, m, uid, stored);
    }
  }

  /** Storing a well-formed session keeps every open session well formed. */
  lemma StoreWellFormed(b: Bank, m: map<string, Session>, uid: string, s: Session)
    requires AllWellFormed(b, m) && WellFormed(b, s)
    ensures AllWellFormed(b, m[uid := s])
  {
  }

  /**
   * A submit for an open session replaces that session only; it completes the assessment
   * exactly when it answers the bank's last item, and only then sets the end time, saves one
   * row holding the normalised scores and returns them; otherwise nothing is saved. A
   * completed session stays open, so a later submit is accepted again.
   */
  lemma SubmitEffect(b: Bank, cats: seq<Category>, catalogue: Dict<seq<string>>, m: map<string, Session>,
                     saved: seq<SavedAssessment>, uid: string, answer: Answer, now: int,
                     coaching: Option<string>, tips: seq<string>, u: string)
    requires ValidBank(b) && uid in m && WellFormed(b, m[uid])
    ensures var res := SubmitOn(b, cats, catalogue, m, saved, uid, answer, now, coaching, tips);
      var last := Position(b, m[uid]) + 1 == TotalItems(b);
      var t := res.0[uid];
      res.0.Keys == m.Keys
      && (u in m && u != uid ==> res.0[u] == m[u])
      && t.scores == Advance(b, m[uid], answer).0.scores
      && (res.2.Completed? <==> last)
      && (!last ==> res.1 == saved && res.2.NextQuestion? && t == Advance(b, m[uid], answer).0)
      && (last ==> t.endTime == Some(now)
                   && res.1 == saved + [SavedRow(b, cats, uid, t, now)]
                   && res.2.finalScores == FinalScores(b, t.scores))
  {
    AdvancePosition(b, m[uid], answer);
    var (t, done) := Advance(b, m[uid], answer);
    var res := SubmitOn(b, cats, catalogue, m, saved, uid, answer, now, coaching, tips);
    if done {
      var t' := t.(endTime := Some(now));
      assert res == (m[uid := t'], saved + [SavedRow(b, cats, uid, t', now)],
                     Completed(uid, t'.assessmentId, SavedRow(b, cats, uid, t', now).finalScores,
                               SavedRow(b, cats, uid, t', now).report,
                               RecommendationsOf(SavedRow(b, cats, uid, t', now).finalScores, catalogue, tips)));
    } else {
      assert res.0 == m[uid := t] && res.1 == saved && res.2.NextQuestion?;
    }
  }

  /** Normalises every raw score, looking up each skill's maximum with a pass over the bank. */
  method ComputeFinalScores(b: Bank, raw: Dict<int>) returns (r: Dict<real>)
    ensures r == FinalScores(b, raw)
  {
    r := [];
    var k := 0;
    while k < |raw|
      invariant 0 <= k <= |raw|
      invariant |r| == k
      invariant forall j :: 0 <= j < k ==> r[j] == FinalScores(b, raw)[j]
    {
      var (skill, score) := raw[k];
      var max := MaxPossibleScore(b, skill);
      r := r + [(skill, FinalScore(score, max))];
      k := k + 1;
    }
  }

  class Assessment {
    const bank: Bank
    const categories: seq<Category>
    const catalogue: Dict<seq<string>>
    var sessions: map<string, Session>
    var saved: seq<SavedAssessment>

    ghost predicate Valid()
      reads this
    {
      ValidBank(bank) && AllWellFormed(bank, sessions)
    }

    constructor (bank: Bank, categories: seq<Category>, catalogue: Dict<seq<string>>)
      requires ValidBank(bank)
      ensures this.bank == bank && this.categories == categories && this.catalogue == catalogue
      ensures sessions == map[] && saved == []
      ensures Valid()
    {
      this.bank := bank;
      this.categories := categories;
      this.catalogue := catalogue;
      sessions := map[];
      saved := [];
    }

    /**
     * Opens (or replaces) the user's session at the first item of the first phase. An empty
     * user id is replaced by one built from the clock reading `stamp`.
     */
    method StartAssessment(userId: string, now: int, stamp: string) returns (r: StartReply)
      requires Valid()
      modifies this
      ensures Valid()
      ensures var uid := SessionUser(userId, stamp);
        sessions == old(sessions)[uid := NewSession(uid, now)]
        && saved == old(saved)
        && r == StartReplyOf(bank, uid, NewSession(uid, now))
    {
      var uid := SessionUser(userId, stamp);
      var s := NewSession(uid, now);
      NewSessionWellFormed(bank, uid, now);
      sessions := sessions[uid := s];
      r := StartReplyOf(bank, uid, s);
    }

    /**
     * Files the answer, updates the scores and moves the cursor; after the bank's last item
     * completes the assessment, saves the row and returns the scores, the report and the
     * recommendations.
     */
    method SubmitAnswer(userId: string, answer: Answer, now: int, coaching: Option<string>, tips: seq<string>)
      returns (r: SubmitReply)
      requires Valid()
      modifies this
      ensures Valid()
      ensures (sessions, saved, r)
        == SubmitOn(bank, categories, catalogue, old(sessions), old(saved), userId, answer, now, coaching, tips)
    {
      SubmitKeepsWellFormed(bank, categories, catalogue, sessions, saved, userId, answer, now, coaching, tips);
      if userId !in sessions {
        return SessionNotFound;
      }
      var s := sessions[userId];
      var item := bank[s.phase].items[s.current];
      var scores := UpdateSkillScores(s.scores, item, answer);
      var t := s.(responses := Put(s.responses, item.id, answer), scores := scores);
      var done := false;
      if s.current + 1 < |bank[s.phase].items| {
        t := t.(current := s.current + 1);
      } else {
        t := t.(completedPhases := s.completedPhases + [bank[s.phase].name], current := 0);
        if s.phase + 1 < |bank| {
          t := t.(phase := s.phase + 1);
        } else {
          done := true;
        }
      }
      assert (t, done) == Advance(bank, s, answer);
      if !done {
        AdvanceWellFormed(bank, s, answer);
        TotalItemsPositive(bank, t.phase);
        sessions := sessions[userId := t];
        r := NextQuestion(userId, bank[t.phase].name, t.current, |bank[t.phase].items|, ProgressOf(bank, t),
                          CurrentQuestion(bank, t), coaching);
      } else {
        t := t.(endTime := Some(now));
        var final := ComputeFinalScores(bank, t.scores);
        var report := ReportOf(categories, final, t, now);
        sessions := sessions[userId := t];
        saved := saved + [SavedAssessment(userId, t.assessmentId, t.startTime, now, final, report)];
        r := Completed(userId, t.assessmentId, final, report, RecommendationsOf(final, catalogue, tips));
      }
    }

    /** `get_assessment_history`: the user's saved results, newest first. */
    method AssessmentHistory(userId: string) returns (h: seq<SavedAssessment>)
      ensures h == History(saved, userId)
      ensures forall x :: x in h <==> x in saved && x.userId == userId
    {
      HistorySpec(saved, userId, SavedAssessment(userId, "", 0, 0, [], Report(0.0, [], [], [], 0, 0, 0)));
      h := Reverse(Filter(saved, ForUser(userId)));
    }

    /** `get_skill_insights`: the newest result compared with the one before it. */
    method SkillInsightsFor(userId: string) returns (r: SkillInsights)
      ensures r == InsightsOf(History(saved, userId))
      ensures r.NoHistory? <==> forall x :: x in saved ==> x.userId != userId
    {
      var h := AssessmentHistory(userId);
      if |h| == 0 {
        r := NoHistory;
      } else if |h| == 1 {
        r := SkillInsights(h[0], [], [], []);
      } else {
        var ps := ProgressEntries(h[0].finalScores, h[1].finalScores);
        r := SkillInsights(h[0], ps, SkillsOf(Filter(ps, Improved)), SkillsOf(Filter(ps, Maintained)));
      }
    }
  }
}
