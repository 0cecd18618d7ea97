/**
 * The advanced mock interview: a five-question session whose questions and evaluations come
 * from a language model. The model's replies are oracle parameters; what is modelled is the
 * session bookkeeping (the parallel `questions` / `answers` / `scores` lists and the
 * `question_number` counter), the continue-or-finish rule, the fallbacks used when the model
 * fails, and the averaging at completion.
 */
module MockInterview {
  import opened Common
  import opened Text

  /** A standard interview has five questions. */
  const TotalQuestions: nat := 5

  /** The score of the fallback evaluation, out of 10. */
  const FallbackScore: real := 5.0

  /**
   * A question as the session stores it. `text` is the `question` field, which a model reply
   * may lack; `number` is the `question_number` written into it.
   */
  datatype Question = Question(text: Option<string>, kind: string, keyPoints: seq<string>,
                               criteria: seq<string>, number: nat)

  /** One row of a fallback list, before its number is written in. */
  function Fallback(text: string, kind: string, keyPoints: seq<string>, criteria: seq<string>): Question
  {
    Question(Some(text), kind, keyPoints, criteria, 0)
  }

  const ProcessThreadText := "Can you explain the difference between a process and a thread? When would you use one over the other?"
  const ProcessThreadPoints := ["Process isolation", "Thread memory sharing", "Context switching", "Use cases"]
  const ProcessThreadCriteria := ["Technical accuracy", "Practical examples", "Understanding of concepts"]
  const BugText := "Describe a challenging bug you encountered and how you debugged it."
  const BugPoints := ["Problem description", "Debugging approach", "Resolution", "Lessons learned"]
  const BugCriteria := ["Problem-solving", "Communication", "Technical depth"]

  const SoftwareEngineerQuestions: seq<Question> := [
    Fallback(ProcessThreadText, "technical", ProcessThreadPoints, ProcessThreadCriteria),
    Fallback(BugText, "behavioral", BugPoints, BugCriteria)
  ]

  /** The fallback lists by role; only the software-engineer list exists. */
  const FallbackLists: Dict<seq<Question>> := [("Software Engineer", SoftwareEngineerQuestions)]

  /** The list used for a role: its own, or the software-engineer list for any other role. */
  function RoleQuestions(role: string): (qs: seq<Question>)
  {
    GetOr<seq<Question>>(FallbackLists, role, SoftwareEngineerQuestions)
  }

  /** The lookup finds the software-engineer list for that role and falls back to it otherwise. */
  lemma RoleQuestionsAreSoftwareEngineer(role: string)
    ensures RoleQuestions(role) == SoftwareEngineerQuestions
  {
    assert FallbackLists[1..] == [];
    assert Get<seq<Question>>(FallbackLists[1..], role) == None;
    if role == "Software Engineer" {
      assert Get<seq<Question>>(FallbackLists, role) == Some(SoftwareEngineerQuestions);
    } else {
      assert FallbackLists[0].0 != role;
      assert Get<seq<Question>>(FallbackLists, role) == None;
    }
  }

  /** `_get_fallback_question`: entry `n % len` of the role's list, numbered `n`. */
  function FallbackQuestion(role: string, difficulty: string, n: nat): (q: Question)
  {
    var qs := RoleQuestions(role);
    RoleQuestionsAreSoftwareEngineer(role);
    qs[n % |qs|].(number := n)
  }

  /**
   * Every role gets the software-engineer list; the fallback question alternates between its
   * two entries, always carries a text, and is numbered as requested.
   */
  lemma FallbackQuestionSpec(role: string, difficulty: string, n: nat)
    ensures FallbackQuestion(role, difficulty, n) == SoftwareEngineerQuestions[n % 2].(number := n)
    ensures FallbackQuestion(role, difficulty, n).text.Some?
    ensures FallbackQuestion(role, difficulty, n).number == n
    ensures FallbackQuestion(role, difficulty, n + 2) == FallbackQuestion(role, difficulty, n).(number := n + 2)
  {
    RoleQuestionsAreSoftwareEngineer(role);
    assert (n + 2) % 2 == n % 2;
  }

  /** An open session: the entry of `active_sessions`. */
  datatype Session = Session(dbId: int, userId: string, role: string, difficulty: string,
                             questionNumber: nat, questions: seq<Question>, answers: seq<string>,
                             scores: seq<real>, startedAt: string)

  /** The question part of a reply, and whether it is a fallback question. */
  datatype Generated = Generated(question: Question, fallback: bool)

  /**
   * `_generate_interview_question` AS WRITTEN. A parsed reply is stored with its number and
   * sets `question_number`; when the model fails the fallback question is stored but
   * `question_number` is left as it was.
   */
  function AskAsWritten(s: Session, n: nat, reply: Option<Question>): (t: Session)
  {
    match reply
    case Some(q) => s.(questions := s.questions + [q.(number := n)], questionNumber := n)
    case None => s.(questions := s.questions + [FallbackQuestion(s.role, s.difficulty, n)])
  }

  /** Question generation with the counter recorded on both paths. */
  function Ask(s: Session, n: nat, reply: Option<Question>): (t: Session)
  {
    AskAsWritten(s, n, reply).(questionNumber := n)
  }

  /** The question a generation returns. */
  function GeneratedOf(s: Session, n: nat, reply: Option<Question>): (g: Generated)
  {
    match reply
    case Some(q) => Generated(q.(number := n), false)
    case None => Generated(FallbackQuestion(s.role, s.difficulty, n), true)
  }

  /** Both versions store exactly one question, the one returned, and change nothing else. */
  lemma AskSpec(s: Session, n: nat, reply: Option<Question>)
    ensures var t := AskAsWritten(s, n, reply);
      t.questions == s.questions + [GeneratedOf(s, n, reply).question]
      && t.answers == s.answers && t.scores == s.scores
      && t.questionNumber == (if reply.Some? then n else s.questionNumber)
      && t.(questions := s.questions, questionNumber := s.questionNumber) == s
    ensures Ask(s, n, reply) == AskAsWritten(s, n, reply).(questionNumber := n)
    ensures GeneratedOf(s, n, reply).question.number == n
  {
  }

  /** The model's evaluation reply: a failure, a JSON object with or without `score`, or other JSON. */
  datatype EvalReply = EvalUnavailable | EvalObject(score: Option<real>) | EvalNotObject

  /**
   * The score filed for an answer: 5.0 from the fallback evaluation, the reply's `score`
   * (0 when absent), and none when the reply is not an object, where `.get` raises.
   */
  function ScoreOf(e: EvalReply): (r: Option<real>)
    ensures e.EvalNotObject? <==> r.None?
    ensures e.EvalUnavailable? ==> r == Some(FallbackScore)
    ensures e.EvalObject? ==> r == Some(if e.score.Some? then e.score.value else 0.0)
  {
    match e
    case EvalUnavailable => Some(FallbackScore)
    case EvalObject(score) => Some(if score.Some? then score.value else 0.0)
    case EvalNotObject => None
  }

  /** The model's final-report reply: unavailable (or not an object), or a parsed report. */
  datatype ReportReply = ReportUnavailable | ReportParsed(body: string)

  /**
   * `_generate_final_report`: the model's report with the question count and the start date
   * written in, or the fallback report carrying the average score and rating "Average".
   */
  datatype FinalReport =
    | ModelReport(body: string, totalQuestions: nat, date: string)
    | FallbackReport(overallScore: real, rating: string)

  function FinalReportOf(s: Session, reply: ReportReply): (r: FinalReport)
  {
    match reply
    case ReportParsed(body) => ModelReport(body, |s.questions|, s.startedAt)
    case ReportUnavailable => FallbackReport(Mean(s.scores), "Average")
  }

  /** The row `_complete_interview_session` updates: its database id and the average score. */
  datatype Completion = Completion(dbId: int, totalScore: real)

  datatype SubmitReply =
    | SessionNotFound
    | SubmitFailed
    | Continues(score: real, evaluation: EvalReply, questionNumber: nat, totalQuestions: nat, next: Generated)
    | Finished(score: real, evaluation: EvalReply, questionNumber: nat, totalQuestions: nat, report: FinalReport)

  /**
   * `submit_answer` on one session AS WRITTEN: evaluate the last question, file the answer
   * and its score, then ask question `question_number + 1` while `question_number < 5`, else
   * build the report and complete. A last question without text raises before anything is
   * filed; an evaluation that is not an object raises after the answer is appended and before
   * its score is, so the session keeps the answer without a score.
   */
  function SubmitAsWritten(s: Session, answer: string, e: EvalReply, gen: Option<Question>, report: ReportReply)
    : (res: (Session, Option<Completion>, SubmitReply))
    requires |s.questions| > 0
    ensures |res.0.questions| > 0
  {
    var current := s.questions[|s.questions| - 1];
    var score := ScoreOf(e);
    if current.text.None? then (s, None, SubmitFailed)
    else if score.None? then (s.(answers := s.answers + [answer]), None, SubmitFailed)
    else
      var n := s.questionNumber;
      var t := s.(answers := s.answers + [answer], scores := s.scores + [score.value]);
      if n < TotalQuestions then
        (AskAsWritten(t, n + 1, gen), None,
         Continues(score.value, e, n, TotalQuestions, GeneratedOf(t, n + 1, gen)))
      else
        (t, Some(Completion(t.dbId, Mean(t.scores))), Finished(score.value, e, n, TotalQuestions, FinalReportOf(t, report)))
  }

  /** The submit with question generation that records the counter on both paths. */
  function Submit(s: Session, answer: string, e: EvalReply, gen: Option<Question>, report: ReportReply)
    : (res: (Session, Option<Completion>, SubmitReply))
    requires |s.questions| > 0
    ensures |res.0.questions| > 0
  {
    var (t, c, r) := SubmitAsWritten(s, answer, e, gen, report);
    if r.Continues? then (t.(questionNumber := s.questionNumber + 1), c, r) else (t, c, r)
  }

  /** The session with one more answer and score filed. */
  function Filed(s: Session, answer: string, score: real): Session
  {
    s.(answers := s.answers + [answer], scores := s.scores + [score])
  }

  /**
   * A submit either fails, having changed nothing or (for an evaluation that is not an
   * object) having appended only the answer, or files exactly one answer and one score; it
   * continues exactly when the counter was below five, and only a finishing submit yields a
   * completion, whose score is the average of all filed scores.
   */
  lemma SubmitSpec(s: Session, answer: string, e: EvalReply, gen: Option<Question>, report: ReportReply)
    requires |s.questions| > 0
    ensures var (t, c, r) := Submit(s, answer, e, gen, report);
      (r.SubmitFailed? <==> s.questions[|s.questions| - 1].text.None? || e.EvalNotObject?)
      && (r.SubmitFailed? ==> c.None?)
      && (r.SubmitFailed? && s.questions[|s.questions| - 1].text.None? ==> t == s)
      && (r.SubmitFailed? && s.questions[|s.questions| - 1].text.Some? ==> t == s.(answers := s.answers + [answer]))
      && (!r.SubmitFailed? ==>
            t.answers == s.answers + [answer] && t.scores == s.scores + [ScoreOf(e).value]
            && t.questions[..|s.questions|] == s.questions
            && (r.Continues? <==> s.questionNumber < TotalQuestions)
            && (r.Continues? ==> c.None? && t.questionNumber == s.questionNumber + 1
                                 && t.questions == s.questions + [r.next.question])
            && (r.Finished? ==> t.questions == s.questions && t.questionNumber == s.questionNumber
                                && c == Some(Completion(s.dbId, Mean(t.scores)))))
  {
    var (t, c, r) := Submit(s, answer, e, gen, report);
    if !r.SubmitFailed? && r.Continues? {
      var u := s.(answers := s.answers + [answer], scores := s.scores + [ScoreOf(e).value]);
      AskSpec(u, s.questionNumber + 1, gen);
      assert t.questions == s.questions + [r.next.question];
    }
  }

  // ---------------------------------------------------------------------------------------
  // The interview finishes after five answers
  // ---------------------------------------------------------------------------------------

  /**
   * The bookkeeping invariant of a session: no more scores than answers (an evaluation that is
   * not an object leaves an answer without a score), the counter equal to the number of
   * questions asked, which is one more than the scores until five, and every question
   * numbered by its position.
   */
  ghost predicate Paced(s: Session)
  {
    |s.scores| <= |s.answers|
    && s.questionNumber == |s.questions| == Min(|s.scores| + 1, TotalQuestions)
    && forall i :: 0 <= i < |s.questions| ==> s.questions[i].number == i + 1
  }

  /** A fresh session before its first question. */
  function NewSession(dbId: int, userId: string, role: string, difficulty: string, startedAt: string): Session
  {
    Session(dbId, userId, role, difficulty, 0, [], [], [], startedAt)
  }

  /** `start_interview_session`'s session: a fresh one that has been asked question 1. */
  function Started(dbId: int, userId: string, role: string, difficulty: string, startedAt: string,
                   gen: Option<Question>): (s: Session)
  {
    Ask(NewSession(dbId, userId, role, difficulty, startedAt), 1, gen)
  }

  /** A started session is paced: one question, numbered 1, and nothing answered yet. */
  lemma StartedPaced(dbId: int, userId: string, role: string, difficulty: string, startedAt: string,
                     gen: Option<Question>)
    ensures var s := Started(dbId, userId, role, difficulty, startedAt, gen);
      Paced(s) && s.answers == [] && s.scores == [] && |s.questions| == 1
  {
    var s0 := NewSession(dbId, userId, role, difficulty, startedAt);
    AskSpec(s0, 1, gen);
    FallbackQuestionSpec(role, difficulty, 1);
  }

  /** The message returned when a session starts. */
  function StartMessage(role: string): string
  {
    "Mock interview started for " + role + " position"
  }

  /** Storing a paced session keeps every session paced. */
  lemma StorePaced(m: map<string, Session>, sid: string, s: Session)
    requires AllPaced(m) && Paced(s)
    ensures AllPaced(m[sid := s])
  {
  }

  /**
   * On a paced session a submit keeps the invariant, and it finishes exactly when it files
   * the fifth score or a later one.
   */
  lemma SubmitPaced(s: Session, answer: string, e: EvalReply, gen: Option<Question>, report: ReportReply)
    requires Paced(s) && |s.questions| > 0
    ensures var (t, c, r) := Submit(s, answer, e, gen, report);
      Paced(t) && (r.Finished? <==> !r.SubmitFailed? && |s.scores| + 1 >= TotalQuestions)
  {
    SubmitSpec(s, answer, e, gen, report);
    var (t, c, r) := Submit(s, answer, e, gen, report);
    if r.Continues? {
      var u := s.(answers := s.answers + [answer], scores := s.scores + [ScoreOf(e).value]);
      AskSpec(u, s.questionNumber + 1, gen);
      FallbackQuestionSpec(s.role, s.difficulty, s.questionNumber + 1);
      assert t.questions[|s.questions|].number == |s.questions| + 1;
      assert forall i :: 0 <= i < |s.questions| ==> t.questions[i] == s.questions[i];
    }
  }

  /** Every question of the session carries a text, so no submit on it raises. */
  ghost predicate Asked(s: Session)
  {
    forall i :: 0 <= i < |s.questions| ==> s.questions[i].text.Some?
  }

  /** Every question the generator replies with carries a text. */
  ghost predicate WithTexts(gens: seq<Option<Question>>)
  {
    forall i :: 0 <= i < |gens| ==> gens[i].Some? ==> gens[i].value.text.Some?
  }

  /** Generation keeps every question texted when the reply has a text. */
  lemma AskKeepsAsked(s: Session, n: nat, gen: Option<Question>)
    requires Asked(s) && (gen.Some? ==> gen.value.text.Some?)
    ensures Asked(Ask(s, n, gen))
  {
    AskSpec(s, n, gen);
    FallbackQuestionSpec(s.role, s.difficulty, n);
    var t := Ask(s, n, gen);
    assert forall i :: 0 <= i < |s.questions| ==> t.questions[i] == s.questions[i];
  }

  /** The session after one answer per generator reply, each evaluated by the fallback evaluation. */
  function Answered(s: Session, gens: seq<Option<Question>>): (t: Session)
    requires |s.questions| > 0
    ensures |t.questions| > 0
    decreases |gens|
  {
    if |gens| == 0 then s
    else Answered(Submit(s, "", EvalUnavailable, gens[0], ReportUnavailable).0, gens[1..])
  }

  /**
   * Whatever texted questions the generator replies with, a paced session that has filed
   * `|gens|` more answers is still paced and has exactly that many more answers and scores.
   */
  lemma {:induction false} AnsweredPaced(s: Session, gens: seq<Option<Question>>)
    requires Paced(s) && Asked(s) && |s.questions| > 0 && WithTexts(gens)
    ensures var t := Answered(s, gens);
      Paced(t) && Asked(t) && |t.answers| == |s.answers| + |gens| && |t.scores| == |s.scores| + |gens|
    decreases |gens|
  {
    if |gens| > 0 {
      var next := Submit(s, "", EvalUnavailable, gens[0], ReportUnavailable).0;
      SubmitPaced(s, "", EvalUnavailable, gens[0], ReportUnavailable);
      SubmitSpec(s, "", EvalUnavailable, gens[0], ReportUnavailable);
      assert s.questions[|s.questions| - 1].text.Some?;
      if s.questionNumber < TotalQuestions {
        var u := s.(answers := s.answers + [""], scores := s.scores + [FallbackScore]);
        AskKeepsAsked(u, s.questionNumber + 1, gens[0]);
      }
      assert WithTexts(gens[1..]) by {
        assert forall i :: 0 <= i < |gens| - 1 ==> gens[1..][i] == gens[i + 1];
      }
      AnsweredPaced(next, gens[1..]);
    }
  }

  /**
   * After a start, four answers continue the interview and the fifth finishes it, whatever
   * texted questions the generator supplies or whether it fails.
   */
  lemma FifthAnswerFinishes(dbId: int, userId: string, role: string, difficulty: string, startedAt: string,
                            first: Option<Question>, gens: seq<Option<Question>>, gen: Option<Question>,
                            report: ReportReply)
    requires |gens| == TotalQuestions - 1
    requires WithTexts(gens) && (first.Some? ==> first.value.text.Some?)
    ensures var s := Answered(Started(dbId, userId, role, difficulty, startedAt, first), gens);
      |s.answers| == |s.scores| == TotalQuestions - 1 && |s.questions| == TotalQuestions
      && Submit(s, "", EvalUnavailable, gen, report).2.Finished?
  {
    var s0 := Started(dbId, userId, role, difficulty, startedAt, first);
    StartedPaced(dbId, userId, role, difficulty, startedAt, first);
    AskKeepsAsked(NewSession(dbId, userId, role, difficulty, startedAt), 1, first);
    AnsweredPaced(s0, gens);
    var s := Answered(s0, gens);
    SubmitPaced(s, "", EvalUnavailable, gen, report);
    assert s.questions[|s.questions| - 1].text.Some?;
  }

  /** The sessions reached from a start when the generator always fails. */
  function StalledRun(s: Session, k: nat): (t: Session)
    requires |s.questions| > 0
    ensures |t.questions| > 0
    decreases k
  {
    if k == 0 then s
    else StalledRun(SubmitAsWritten(s, "", EvalUnavailable, None, ReportUnavailable).0, k - 1)
  }

  /**
   * As written, when the generator keeps failing the counter never moves: every further
   * answer is filed and the interview continues, however many answers are given.
   */
  lemma {:induction false} StalledRunNeverFinishes(s: Session, k: nat)
    requires |s.questions| > 0 && s.questionNumber < TotalQuestions
    requires s.questions[|s.questions| - 1].text.Some?
    ensures var t := StalledRun(s, k);
      t.questionNumber == s.questionNumber && |t.answers| == |s.answers| + k
      && t.questions[|t.questions| - 1].text.Some?
      && SubmitAsWritten(t, "", EvalUnavailable, None, ReportUnavailable).2.Continues?
    decreases k
  {
    var t0 := s.(answers := s.answers + [""], scores := s.scores + [FallbackScore]);
    FallbackQuestionSpec(s.role, s.difficulty, s.questionNumber + 1);
    AskSpec(t0, s.questionNumber + 1, None);
    if k > 0 {
      StalledRunNeverFinishes(SubmitAsWritten(s, "", EvalUnavailable, None, ReportUnavailable).0, k - 1);
    }
  }

  /** A start whose generator fails leaves the counter at 0, so the stalled run applies. */
  lemma StartWithFailingGeneratorStalls(dbId: int, userId: string, role: string, difficulty: string,
                                        startedAt: string, k: nat)
    ensures var s := AskAsWritten(NewSession(dbId, userId, role, difficulty, startedAt), 1, None);
      StalledRun(s, k).questionNumber == 0
      && SubmitAsWritten(StalledRun(s, k), "", EvalUnavailable, None, ReportUnavailable).2.Continues?
  {
    var s := AskAsWritten(NewSession(dbId, userId, role, difficulty, startedAt), 1, None);
    FallbackQuestionSpec(role, difficulty, 1);
    StalledRunNeverFinishes(s, k);
  }

  // ---------------------------------------------------------------------------------------
  // The table of open sessions
  // ---------------------------------------------------------------------------------------

  /** The session id: the user id, an underscore and the clock reading in whole seconds. */
  function SessionId(userId: string, clock: nat): (sid: string)
    ensures |sid| > |userId| + 1 && sid[..|userId|] == userId && sid[|userId|] == '_'
    ensures ParseInt(sid[|userId| + 1..]) == Some(clock as int)
  {
    var sid := userId + "_" + NatToString(clock);
    assert sid[|userId| + 1..] == NatToString(clock);
    ParseNatString(clock);
    sid
  }

  datatype StartReply = StartReply(sessionId: string, message: string, firstQuestion: Generated)

  /** Every open session keeps the bookkeeping invariant. */
  ghost predicate AllPaced(m: map<string, Session>)
  {
    forall k :: k in m ==> Paced(m[k])
  }

  /**
   * `submit_answer` against the table of open sessions and the completed rows: an unknown
   * session id is an error; otherwise the session is replaced by its updated version and a
   * finishing submit adds its completion row. A finished session stays open.
   */
  function SubmitOn(m: map<string, Session>, done: seq<Completion>, sid: string, answer: string, e: EvalReply,
                    gen: Option<Question>, report: ReportReply)
    : (res: (map<string, Session>, seq<Completion>, SubmitReply))
    requires AllPaced(m)
    ensures sid !in m ==> res == (m, done, SessionNotFound)
  {
    if sid !in m then (m, done, SessionNotFound)
    else
      var (t, c, r) := Submit(m[sid], answer, e, gen, report);
      (m[sid := t], done + (if c.Some? then [c.value] else []), r)
  }

  /**
   * The table after a submit that fails: unchanged when the last question has no text, and
   * with only the answer appended when the evaluation is not an object.
   */
  lemma SubmitOnFails(m: map<string, Session>, done: seq<Completion>, sid: string, answer: string, e: EvalReply,
                      gen: Option<Question>, report: ReportReply)
    requires AllPaced(m) && sid in m
    requires m[sid].questions[|m[sid].questions| - 1].text.None? || ScoreOf(e).None?
    ensures var s := m[sid];
      SubmitOn(m, done, sid, answer, e, gen, report)
        == (if s.questions[|s.questions| - 1].text.None? then m else m[sid := s.(answers := s.answers + [answer])],
            done, SubmitFailed)
  {
    assert m[sid := m[sid]] == m;
    assert done + [] == done;
  }

  /** The table after a submit that files the answer and asks the next question. */
  lemma SubmitOnContinues(m: map<string, Session>, done: seq<Completion>, sid: string, answer: string, e: EvalReply,
                          gen: Option<Question>, report: ReportReply)
    requires AllPaced(m) && sid in m
    requires m[sid].questions[|m[sid].questions| - 1].text.Some? && ScoreOf(e).Some?
    requires m[sid].questionNumber < TotalQuestions
    ensures var s := m[sid];
      var t := Filed(s, answer, ScoreOf(e).value);
      var n := s.questionNumber;
      SubmitOn(m, done, sid, answer, e, gen, report)
        == (m[sid := Ask(t, n + 1, gen)], done,
            Continues(ScoreOf(e).value, e, n, TotalQuestions, GeneratedOf(t, n + 1, gen)))
  {
    assert done + [] == done;
  }

  /** The table after a submit that files the last answer and completes the interview. */
  lemma SubmitOnFinishes(m: map<string, Session>, done: seq<Completion>, sid: string, answer: string, e: EvalReply,
                         gen: Option<Question>, report: ReportReply)
    requires AllPaced(m) && sid in m
    requires m[sid].questions[|m[sid].questions| - 1].text.Some? && ScoreOf(e).Some?
    requires m[sid].questionNumber >= TotalQuestions
    ensures var s := m[sid];
      var t := Filed(s, answer, ScoreOf(e).value);
      var n := s.questionNumber;
      SubmitOn(m, done, sid, answer, e, gen, report)
        == (m[sid := t], done + [Completion(t.dbId, Mean(t.scores))],
            Finished(ScoreOf(e).value, e, n, TotalQuestions, FinalReportOf(t, report)))
  {
  }

  /**
   * A submit keeps every session paced, touches only its own session, and adds a completion
   * row, holding the session's average score, exactly when it finishes the interview.
   */
  lemma SubmitOnSpec(m: map<string, Session>, done: seq<Completion>, sid: string, answer: string, e: EvalReply,
                     gen: Option<Question>, report: ReportReply, u: string)
    requires AllPaced(m)
    ensures var (m', done', r) := SubmitOn(m, done, sid, answer, e, gen, report);
      AllPaced(m') && m'.Keys == m.Keys
      && (u in m && u != sid ==> m'[u] == m[u])
      && (r.Finished? ==> done' == done + [Completion(m[sid].dbId, Mean(m'[sid].scores))])
      && (!r.Finished? ==> done' == done)
      && (r.SubmitFailed? ==> m'[sid].questions == m[sid].questions && m'[sid].scores == m[sid].scores
                              && (m'[sid] == m[sid] || m'[sid] == m[sid].(answers := m[sid].answers + [answer])))
  {
    if sid in m {
      SubmitPaced(m[sid], answer, e, gen, report);
      SubmitSpec(m[sid], answer, e, gen, report);
    }
  }

  /**
   * The completion row's score is the average of the filed scores; when every score is on
   * the ten-point scale, so is the average.
   */
  lemma CompletionScoreBounds(s: Session, answer: string, e: EvalReply, gen: Option<Question>, report: ReportReply)
    requires |s.questions| > 0
    requires forall i :: 0 <= i < |s.scores| ==> 0.0 <= s.scores[i] <= 10.0
    requires e.EvalObject? ==> e.score.Some? ==> 0.0 <= e.score.value <= 10.0
    ensures var (t, c, r) := Submit(s, answer, e, gen, report);
      c.Some? ==> 0.0 <= c.value.totalScore <= 10.0
  {
    SubmitSpec(s, answer, e, gen, report);
    var (t, c, r) := Submit(s, answer, e, gen, report);
    if c.Some? {
      MeanBounds(t.scores, 0.0, 10.0);
    }
  }

  class Interviewer {
    var sessions: map<string, Session>
    var completions: seq<Completion>

    ghost predicate Valid()
      reads this
    {
      AllPaced(sessions)
    }

    constructor ()
      ensures sessions == map[] && completions == []
      ensures Valid()
    {
      sessions := map[];
      completions := [];
    }

    /**
     * `_generate_interview_question` for an open session: stores the model's question, or the
     * fallback question when the model fails, and records the question number.
     */
    method GenerateQuestion(sid: string, n: nat, gen: Option<Question>) returns (g: Generated)
      requires sid in sessions
      modifies this
      ensures sessions == old(sessions)[sid := Ask(old(sessions)[sid], n, gen)]
      ensures completions == old(completions)
      ensures g == GeneratedOf(old(sessions)[sid], n, gen)
    {
      var s := sessions[sid];
      var q;
      match gen {
        case Some(reply) =>
          q := reply.(number := n);
          g := Generated(q, false);
        case None =>
          q := FallbackQuestion(s.role, s.difficulty, n);
          g := Generated(q, true);
      }
      s := s.(questions := s.questions + [q]);
      s := s.(questionNumber := n);
      sessions := sessions[sid := s];
    }

    /**
     * `start_interview_session`: opens (or replaces) the session `user_clock` with an empty
     * history and asks question 1. `dbId` is the row id of the stored session and `startedAt`
     * the start time.
     */
    method StartInterviewSession(userId: string, role: string, difficulty: string, clock: nat, dbId: int,
                                 startedAt: string, gen: Option<Question>)
      returns (r: StartReply)
      requires Valid()
      modifies this
      ensures Valid()
      ensures var sid := SessionId(userId, clock);
        sessions == old(sessions)[sid := Started(dbId, userId, role, difficulty, startedAt, gen)]
        && completions == old(completions)
        && r == StartReply(sid, StartMessage(role),
                           GeneratedOf(NewSession(dbId, userId, role, difficulty, startedAt), 1, gen))
    {
      var sid := SessionId(userId, clock);
      ghost var m0 := sessions;
      sessions := sessions[sid := NewSession(dbId, userId, role, difficulty, startedAt)];
      var first := GenerateQuestion(sid, 1, gen);
      assert sessions == m0[sid := Started(dbId, userId, role, difficulty, startedAt, gen)];
      StartedPaced(dbId, userId, role, difficulty, startedAt, gen);
      StorePaced(m0, sid, Started(dbId, userId, role, difficulty, startedAt, gen));
      r := StartReply(sid, StartMessage(role), first);
    }

    /** Appends the answer and its score to the session's lists. */
    method FileAnswer(sid: string, answer: string, score: real) returns (s: Session)
      requires sid in sessions
      modifies this
      ensures s == Filed(old(sessions)[sid], answer, score)
      ensures sessions == old(sessions)[sid := s] && completions == old(completions)
    {
      s := sessions[sid];
      s := s.(answers := s.answers + [answer], scores := s.scores + [score]);
      sessions := sessions[sid := s];
    }

    /** The rest of `submit_answer` once the answer is evaluated: files it, then asks or completes. */
    method FileAndAdvance(sid: string, answer: string, e: EvalReply, gen: Option<Question>, report: ReportReply)
      returns (r: SubmitReply)
      requires Valid() && sid in sessions
      requires sessions[sid].questions[|sessions[sid].questions| - 1].text.Some? && ScoreOf(e).Some?
      modifies this
      ensures var res := SubmitOn(old(sessions), old(completions), sid, answer, e, gen, report);
        sessions == res.0 && completions == res.1 && r == res.2
    {
      ghost var m0, d0 := sessions, completions;
      var score := ScoreOf(e).value;
      var n := sessions[sid].questionNumber;
      var s := FileAnswer(sid, answer, score);
      if n < TotalQuestions {
        ghost var m1 := sessions;
        var next := GenerateQuestion(sid, n + 1, gen);
        r := Continues(score, e, n, TotalQuestions, next);
        SubmitOnContinues(m0, d0, sid, answer, e, gen, report);
        assert sessions == m1[sid := Ask(s, n + 1, gen)];
        assert sessions == m0[sid := Ask(s, n + 1, gen)];
      } else {
        var final := FinalReportOf(s, report);
        completions := completions + [Completion(s.dbId, Mean(s.scores))];
        r := Finished(score, e, n, TotalQuestions, final);
        SubmitOnFinishes(m0, d0, sid, answer, e, gen, report);
      }
    }

    /**
     * `submit_answer`: evaluates the last question, files the answer and its score, then asks
     * the next question or builds the report and records the completion.
     */
    method SubmitAnswer(sid: string, answer: string, e: EvalReply, gen: Option<Question>, report: ReportReply)
      returns (r: SubmitReply)
      requires Valid()
      modifies this
      ensures Valid()
      ensures var res := SubmitOn(old(sessions), old(completions), sid, answer, e, gen, report);
        sessions == res.0 && completions == res.1 && r == res.2
    {
      ghost var m0, d0 := sessions, completions;
      ghost var res := SubmitOn(m0, d0, sid, answer, e, gen, report);
      if sid !in sessions {
        r := SessionNotFound;
      } else {
        var s := sessions[sid];
        var current := s.questions[|s.questions| - 1];
        var score := ScoreOf(e);
        if current.text.None? {
          r := SubmitFailed;
          SubmitOnFails(m0, d0, sid, answer, e, gen, report);
        } else if score.None? {
          sessions := sessions[sid := s.(answers := s.answers + [answer])];
          r := SubmitFailed;
          SubmitOnFails(m0, d0, sid, answer, e, gen, report);
        } else {
          r := FileAndAdvance(sid, answer, e, gen, report);
        }
      }
      assert AllPaced(res.0) by {
        SubmitOnSpec(m0, d0, sid, answer, e, gen, report, sid);
      }
    }
  }
}
