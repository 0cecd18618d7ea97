/**
 * The deterministic parts of the Gemini engine: pulling the JSON out of a model reply
 * wrapped in markdown code fences, the ATS score and optimisation tips of a generated
 * resume, the defaulting and fallback of a generated interview question, the fallback
 * resume and the salary-negotiation fallback. The model call is an input (`Generation`)
 * and `json.loads` a parameter (`parse`, `None` where it raises).
 */
module Gemini {
  import opened Common
  import opened Text

  const Fence: string := "```"
  const JsonFence: string := "```json"

  // ---------------------------------------------------------------------------------------
  // Code-fence extraction
  // ---------------------------------------------------------------------------------------

  /** `s.split(sep)[1]` for an `s` containing `sep`: the text between its first two occurrences. */
  function SecondPart(s: string, sep: string): string
  {
    BeforeFirst(AfterFirst(s, sep), sep)
  }

  /**
   * The extraction idiom: the text after "```json" up to the next "```", else the text
   * between the first two "```", each stripped; otherwise the text itself.
   */
  function ExtractJson(text: string): string
  {
    if Contains(text, JsonFence) then Strip(BeforeFirst(SecondPart(text, JsonFence), Fence))
    else if Contains(text, Fence) then Strip(BeforeFirst(SecondPart(text, Fence), Fence))
    else text
  }

  /** `s[a..b]` holds no fence and ends either at the end of `s` or where a fence begins. */
  ghost predicate FenceSegment(s: string, a: nat, b: nat)
  {
    a <= b <= |s| && !Contains(s[a..b], Fence) && (b == |s| || OccursAt(s, Fence, b))
  }

  /** `BeforeFirst` is a prefix that stops at the end or at the first separator. */
  lemma BeforeFirstPrefix(t: string, sep: string)
    requires |sep| > 0
    ensures var b := BeforeFirst(t, sep);
      |b| <= |t| && b == t[..|b|] && (|b| == |t| || OccursAt(t, sep, |b|)) && !Contains(b, sep)
  {
    BeforeFirstHasNoSeparator(t, sep);
  }

  /**
   * Cutting `s[a..]` at a separator that starts with a fence, then at a fence, leaves a
   * fence segment of `s` starting at `a`.
   */
  lemma OccursInExtension(y: string, x: string, sub: string, k: nat)
    requires |y| <= |x| && y == x[..|y|] && OccursAt(y, sub, k)
    ensures OccursAt(x, sub, k)
  {
    assert x[k..k + |sub|] == y[k..k + |sub|];
  }

  lemma OccursShift(s: string, a: nat, sub: string, k: nat)
    requires a <= |s| && OccursAt(s[a..], sub, k)
    ensures OccursAt(s, sub, a + k)
  {
    assert s[a + k..a + k + |sub|] == s[a..][k..k + |sub|];
  }

  /** Where a separator that starts with a fence occurs, a fence occurs. */
  lemma FenceOfSeparator(x: string, sep: string, k: nat)
    requires |sep| >= 3 && sep[..3] == Fence && OccursAt(x, sep, k)
    ensures OccursAt(x, Fence, k)
  {
    assert x[k..k + 3] == x[k..k + |sep|][..3];
  }

  lemma CutIsFenceSegment(s: string, a: nat, sep: string)
    requires a <= |s| && |sep| >= 3 && sep[..3] == Fence
    ensures var z := BeforeFirst(BeforeFirst(s[a..], sep), Fence);
      a + |z| <= |s| && z == s[a..a + |z|] && FenceSegment(s, a, a + |z|)
  {
    var x := s[a..];
    var y := BeforeFirst(x, sep);
    var z := BeforeFirst(y, Fence);
    BeforeFirstPrefix(x, sep);
    BeforeFirstPrefix(y, Fence);
    assert z == x[..|z|];
    assert z == s[a..a + |z|];
    if |z| < |y| {
      OccursInExtension(y, x, Fence, |z|);
      OccursShift(s, a, Fence, |z|);
    } else if |y| < |x| {
      FenceOfSeparator(x, sep, |y|);
      OccursShift(s, a, Fence, |y|);
    }
  }

  /** The stripped text after the first `marker`, cut at the next fence, is a stripped fence segment. */
  lemma MarkedSegment(text: string, marker: string, a: nat)
    requires |marker| >= 3 && marker[..3] == Fence
    requires IndexOf(text, marker).Some? && a == IndexOf(text, marker).value + |marker|
    ensures var r := Strip(BeforeFirst(SecondPart(text, marker), Fence));
      (exists b :: a <= b <= |text| && FenceSegment(text, a, b) && r == Strip(text[a..b])) && !Contains(r, Fence)
  {
    var rest := AfterFirst(text, marker);
    assert rest == text[a..];
    var z := BeforeFirst(BeforeFirst(rest, marker), Fence);
    assert z == BeforeFirst(SecondPart(text, marker), Fence);
    CutIsFenceSegment(text, a, marker);
    var b := a + |z|;
    assert text[a..b] == z && FenceSegment(text, a, b);
    StripAbsence(z, Fence);
  }

  /**
   * With "```json" present the result is the stripped fence segment that starts right
   * after its first occurrence; otherwise with "```" present, the one after the first
   * fence; with neither, the text is unchanged. In both fenced cases the result holds no
   * "```".
   */
  lemma ExtractJsonSpec(text: string)
    ensures var r := ExtractJson(text);
      (Contains(text, JsonFence) ==>
         var a := IndexOf(text, JsonFence).value + |JsonFence|;
         exists b :: a <= b <= |text| && FenceSegment(text, a, b) && r == Strip(text[a..b]))
      && (!Contains(text, JsonFence) && Contains(text, Fence) ==>
         var a := IndexOf(text, Fence).value + |Fence|;
         exists b :: a <= b <= |text| && FenceSegment(text, a, b) && r == Strip(text[a..b]))
      && (!Contains(text, JsonFence) && !Contains(text, Fence) ==> r == text)
      && (Contains(text, Fence) || Contains(text, JsonFence) ==> !Contains(r, Fence))
  {
    if Contains(text, JsonFence) {
      assert JsonFence[..3] == Fence;
      MarkedSegment(text, JsonFence, IndexOf(text, JsonFence).value + |JsonFence|);
    } else if Contains(text, Fence) {
      assert Fence[..3] == Fence;
      MarkedSegment(text, Fence, IndexOf(text, Fence).value + |Fence|);
    }
  }

  /** A reply from the model, or the exception its call raised. */
  datatype Generation = GenerationFailed | Generated(text: string)

  /** The outcome of an endpoint that returns the model's JSON or an error dict. */
  datatype JsonReply<J> = ModelJson(value: J) | ErrorReply

  /**
   * The endpoints that call the model and return `json.loads` of the extracted text, with
   * an error dict for any exception (`analyze_linkedin_profile` and the others).
   */
  function JsonEndpoint<J>(gen: Generation, parse: string -> Option<J>): (r: JsonReply<J>)
    ensures r.ModelJson? <==> gen.Generated? && parse(ExtractJson(gen.text)).Some?
    ensures r.ModelJson? ==> r.value == parse(ExtractJson(gen.text)).value
  {
    if gen.GenerationFailed? then ErrorReply
    else
      match parse(ExtractJson(gen.text))
      case Some(j) => ModelJson(j)
      case None => ErrorReply
  }

  // ---------------------------------------------------------------------------------------
  // ATS score and optimisation tips of a generated resume
  // ---------------------------------------------------------------------------------------

  /** The keys of the generated resume dict that the score and the tips look at. */
  datatype ResumeData = ResumeData(summary: Option<string>, hasSkills: bool, hasExperience: bool,
                                   atsKeywords: Option<seq<string>>, hasProjects: bool)

  function KeywordCount(d: ResumeData): nat
  {
    if d.atsKeywords.Some? then |d.atsKeywords.value| else 0
  }

  function SummaryLength(d: ResumeData): nat
  {
    if d.summary.Some? then |d.summary.value| else 0
  }

  /** The points before the cap: 20 for a summary over 50, 25 each for skills and experience, 30 for over 10 keywords. */
  function AtsPoints(d: ResumeData): nat
  {
    (if d.summary.Some? && |d.summary.value| > 50 then 20 else 0)
    + (if d.hasSkills then 25 else 0)
    + (if d.hasExperience then 25 else 0)
    + (if d.atsKeywords.Some? && KeywordCount(d) > 10 then 30 else 0)
  }

  /** `_calculate_ats_score`: the points added one check at a time, capped at 100. */
  method CalculateAtsScore(d: ResumeData) returns (score: nat)
    ensures score == Min(AtsPoints(d), 100)
  {
    score := 0;
    if d.summary.Some? && |d.summary.value| > 50 {
      score := score + 20;
    }
    if d.hasSkills {
      score := score + 25;
    }
    if d.hasExperience {
      score := score + 25;
    }
    if d.atsKeywords.Some? && |d.atsKeywords.value| > 10 {
      score := score + 30;
    }
    score := Min(score, 100);
  }

  /**
   * The score lies in [0, 100] and the cap never changes it; it is 100 exactly when all
   * four checks pass and 0 exactly when none does.
   */
  lemma AtsScoreSpec(d: ResumeData)
    ensures var s := Min(AtsPoints(d), 100);
      0 <= s <= 100 && s == AtsPoints(d)
      && (s == 100 <==> SummaryLength(d) > 50 && d.hasSkills && d.hasExperience && KeywordCount(d) > 10)
      && (s == 0 <==> SummaryLength(d) <= 50 && !d.hasSkills && !d.hasExperience && KeywordCount(d) <= 10)
  {
  }

  datatype Tip = AddSummary | MoreKeywords | AddProjects

  function Tips(d: ResumeData): seq<Tip>
  {
    When(SummaryLength(d) < 50, AddSummary) + When(KeywordCount(d) < 15, MoreKeywords) + When(!d.hasProjects, AddProjects)
  }

  /** `_get_optimization_tips`: one tip appended per failed check. */
  method GetOptimizationTips(d: ResumeData) returns (tips: seq<Tip>)
    ensures tips == Tips(d)
  {
    tips := [];
    if d.summary.None? || |d.summary.value| < 50 {
      tips := tips + [AddSummary];
    }
    assert tips == When(SummaryLength(d) < 50, AddSummary);
    ghost var t1 := tips;
    if d.atsKeywords.None? || |d.atsKeywords.value| < 15 {
      tips := tips + [MoreKeywords];
    }
    assert tips == t1 + When(KeywordCount(d) < 15, MoreKeywords);
    ghost var t2 := tips;
    if !d.hasProjects {
      tips := tips + [AddProjects];
    }
    assert tips == t2 + When(!d.hasProjects, AddProjects);
  }

  /**
   * At most three distinct tips, each exactly when its check fails. The score and the tips
   * use different bounds: a summary of exactly 50 characters earns neither the points nor
   * the tip, and 11 to 14 keywords earn both the points and the tip.
   */
  lemma TipsSpec(d: ResumeData)
    ensures var t := Tips(d);
      |t| <= 3 && Distinct(t)
      && (AddSummary in t <==> SummaryLength(d) < 50)
      && (MoreKeywords in t <==> KeywordCount(d) < 15)
      && (AddProjects in t <==> !d.hasProjects)
      && (SummaryLength(d) == 50 ==> AddSummary !in t && AtsPoints(d) == AtsPoints(d.(summary := None)))
      && (10 < KeywordCount(d) < 15 ==> MoreKeywords in t && AtsPoints(d) == AtsPoints(d.(atsKeywords := None)) + 30)
  {
  }

  // ---------------------------------------------------------------------------------------
  // Generated resume and its fallback
  // ---------------------------------------------------------------------------------------

  datatype UserData<E> = UserData(targetRole: Option<string>, skills: Option<seq<string>>,
                                  experience: Option<seq<E>>, education: Option<string>)

  datatype FallbackResume<E> = FallbackResume(summary: string, skills: seq<string>, experience: seq<E>, education: string)

  function SummaryFor(role: string): string
  {
    "Experienced " + role + " with strong technical skills."
  }

  /** `_generate_fallback_resume`. */
  function FallbackResumeOf<E>(u: UserData<E>): FallbackResume<E>
  {
    FallbackResume(SummaryFor(OrElse(u.targetRole, "professional")), OrElse(u.skills, []), OrElse(u.experience, []),
                   OrElse(u.education, ""))
  }

  /**
   * The fallback copies the user's skills, experience and education (empty when absent) and
   * names the target role, "professional" by default, in its summary.
   */
  lemma FallbackResumeSpec<E>(u: UserData<E>)
    ensures var f := FallbackResumeOf(u);
      (u.skills.Some? ==> f.skills == u.skills.value) && (u.skills.None? ==> f.skills == [])
      && (u.experience.Some? ==> f.experience == u.experience.value) && (u.experience.None? ==> f.experience == [])
      && (u.education.Some? ==> f.education == u.education.value) && (u.education.None? ==> f.education == "")
      && Contains(f.summary, OrElse(u.targetRole, "professional"))
  {
    var role := OrElse(u.targetRole, "professional");
    ContainsSelf(role);
    ContainsConcat("Experienced ", role, role);
    ContainsConcat("Experienced " + role, " with strong technical skills.", role);
  }

  datatype ResumeReply<E> =
    | ResumeGenerated(resume: ResumeData, atsScore: nat, tips: seq<Tip>)
    | ResumeFailed(fallback: FallbackResume<E>)

  /** `generate_ats_optimized_resume`: the parsed resume with its score and tips, or the fallback. */
  method GenerateAtsOptimizedResume<E>(u: UserData<E>, gen: Generation, parse: string -> Option<ResumeData>)
    returns (r: ResumeReply<E>)
    ensures r.ResumeFailed? <==> gen.GenerationFailed? || parse(ExtractJson(gen.text)).None?
    ensures r.ResumeFailed? ==> r.fallback == FallbackResumeOf(u)
    ensures r.ResumeGenerated? ==>
      var d := parse(ExtractJson(gen.text)).value;
      r.resume == d && r.atsScore == AtsPoints(d) && r.tips == Tips(d)
  {
    if gen.GenerationFailed? {
      return ResumeFailed(FallbackResumeOf(u));
    }
    var parsed := parse(ExtractJson(gen.text));
    if parsed.None? {
      return ResumeFailed(FallbackResumeOf(u));
    }
    var score := CalculateAtsScore(parsed.value);
    AtsScoreSpec(parsed.value);
    var tips := GetOptimizationTips(parsed.value);
    r := ResumeGenerated(parsed.value, score, tips);
  }

  // ---------------------------------------------------------------------------------------
  // Mock-interview question
  // ---------------------------------------------------------------------------------------

  /** The keys of the question dict; `None` for a key that is absent. */
  datatype InterviewData = InterviewData(question: Option<string>, evaluationCriteria: Option<string>,
                                         keyPoints: Option<seq<string>>, mistakes: Option<seq<string>>,
                                         sampleAnswer: Option<string>, followUps: Option<seq<string>>)

  function DefaultQuestion(role: string): string
  {
    "Describe your experience with " + role
    + " responsibilities and provide a specific example of a challenge you overcame."
  }

  const DefaultCriteria: string := "Looking for specific examples, problem-solving approach, and outcome"

  const DefaultKeyPoints: seq<string> := ["Specific situation", "Your actions", "Measurable results"]

  function FallbackQuestion(role: string): string
  {
    "Tell me about a challenging project you worked on as a " + role
    + ". What was the problem, how did you approach it, and what was the outcome?"
  }

  const FallbackCriteria: string := "Looking for problem-solving skills, technical depth, and measurable impact"

  const FallbackKeyPoints: seq<string> :=
    ["Clear problem statement", "Your specific approach and actions", "Quantifiable results and learnings"]

  const FallbackMistakes: seq<string> :=
    ["Being too vague", "Not mentioning specific technologies",
     "Focusing only on team achievements without personal contribution"]

  const FallbackSample: string :=
    "I worked on a system that had performance issues. I profiled the code, identified bottlenecks, "
    + "implemented caching, and reduced response time by 60%."

  const FallbackFollowUps: seq<string> := ["What would you do differently?", "How did you measure success?"]

  /** The fixed question returned on any exception. */
  function FallbackInterview(role: string): InterviewData
  {
    InterviewData(Some(FallbackQuestion(role)), Some(FallbackCriteria), Some(FallbackKeyPoints),
                  Some(FallbackMistakes), Some(FallbackSample), Some(FallbackFollowUps))
  }

  /** A missing or empty question is falsy in Python. */
  predicate HasQuestion(d: InterviewData)
  {
    d.question.Some? && |d.question.value| > 0
  }

  /** The three checks of `conduct_mock_interview`, each filling one key when it is missing. */
  method FillDefaults(d: InterviewData, role: string) returns (d': InterviewData)
    ensures Defaulted(d, d', role)
  {
    d' := d;
    if d'.question.None? || |d'.question.value| == 0 {
      d' := d'.(question := Some(DefaultQuestion(role)));
    }
    if d'.evaluationCriteria.None? {
      d' := d'.(evaluationCriteria := Some(DefaultCriteria));
    }
    if d'.keyPoints.None? {
      d' := d'.(keyPoints := Some(DefaultKeyPoints));
    }
  }

  /** The parsed question: the reply is stripped before the fences are looked for. */
  function ParsedInterview(gen: Generation, parse: string -> Option<InterviewData>): Option<InterviewData>
  {
    if gen.GenerationFailed? then None else parse(ExtractJson(Strip(gen.text)))
  }

  /** `r` is `d` with a default put in for each of the three keys that is missing. */
  predicate Defaulted(d: InterviewData, r: InterviewData, role: string)
  {
    r.question == (if HasQuestion(d) then d.question else Some(DefaultQuestion(role)))
    && r.evaluationCriteria == (if d.evaluationCriteria.Some? then d.evaluationCriteria else Some(DefaultCriteria))
    && r.keyPoints == (if d.keyPoints.Some? then d.keyPoints else Some(DefaultKeyPoints))
    && r.mistakes == d.mistakes && r.sampleAnswer == d.sampleAnswer && r.followUps == d.followUps
  }

  lemma FallbackInterviewComplete(role: string)
    ensures var f := FallbackInterview(role);
      HasQuestion(f) && f.evaluationCriteria.Some? && f.keyPoints.Some?
  {
    assert |FallbackQuestion(role)| > 0;
  }

  lemma DefaultedComplete(d: InterviewData, r: InterviewData, role: string)
    requires Defaulted(d, r, role)
    ensures HasQuestion(r) && r.evaluationCriteria.Some? && r.keyPoints.Some?
  {
    if !HasQuestion(d) {
      var q := "Describe your experience with ";
      assert |q| > 0;
    }
  }

  /**
   * `conduct_mock_interview`: the question parsed from the stripped reply with defaults, or
   * the fallback when the call or the parse fails; either way the question, the evaluation
   * criteria and the key points are present and the question is not empty.
   */
  method ConductMockInterview(role: string, gen: Generation, parse: string -> Option<InterviewData>)
    returns (r: InterviewData)
    ensures ParsedInterview(gen, parse).None? ==> r == FallbackInterview(role)
    ensures ParsedInterview(gen, parse).Some? ==> Defaulted(ParsedInterview(gen, parse).value, r, role)
    ensures HasQuestion(r) && r.evaluationCriteria.Some? && r.keyPoints.Some?
  {
    if gen.GenerationFailed? {
      FallbackInterviewComplete(role);
      return FallbackInterview(role);
    }
    var parsed := parse(ExtractJson(Strip(gen.text)));
    if parsed.None? {
      FallbackInterviewComplete(role);
      return FallbackInterview(role);
    }
    r := FillDefaults(parsed.value, role);
    DefaultedComplete(parsed.value, r, role);
  }

  // ---------------------------------------------------------------------------------------
  // Salary-negotiation fallback
  // ---------------------------------------------------------------------------------------

  /** `job_offer.get('offered_salary')`: absent, a number, a string, or something `int()` rejects. */
  datatype SalaryField = Absent | Whole(n: int) | Fractional(x: real) | Text(s: string) | Unconvertible

  /** `int(job_offer.get('offered_salary', 700000))`, with 700000 where `int()` raises. */
  function OfferedSalary(f: SalaryField): int
  {
    match f
    case Absent => 700000
    case Whole(n) => n
    case Fractional(x) => TruncateReal(x)
    case Text(s) => OrElse(ParseInt(s), 700000)
    case Unconvertible => 700000
  }

  /** The salary figures of the fallback strategy, each `int(offered * factor)`. */
  datatype SalaryFigures = SalaryFigures(p25: int, median: int, p75: int, p90: int, counterOffer: int, walkAway: int)

  function SalaryFiguresOf(offered: int): SalaryFigures
  {
    var o := offered as real;
    SalaryFigures(TruncateReal(o * 0.85), offered, TruncateReal(o * 1.15), TruncateReal(o * 1.30),
                  TruncateReal(o * 1.12), TruncateReal(o * 0.95))
  }

  lemma TruncateMonotone(x: real, y: real)
    requires 0.0 <= x <= y
    ensures TruncateReal(x) <= TruncateReal(y)
  {
    TruncateBounds(x);
    TruncateBounds(y);
  }

  /**
   * A text that `int()` cannot read falls back to 700000, a decimal text is read, and for
   * a non-negative offer the figures are ordered: 25th percentile, walk-away threshold,
   * median (the offer itself), counter offer, 75th and 90th percentile.
   */
  lemma SalaryFallbackSpec(f: SalaryField, n: int)
    ensures f.Text? && ParseInt(f.s).None? ==> OfferedSalary(f) == 700000
    ensures f == Text(IntToString(n)) ==> OfferedSalary(f) == n
    ensures var o := OfferedSalary(f); var g := SalaryFiguresOf(o);
      o >= 0 ==> g.p25 <= g.walkAway <= g.median <= g.counterOffer <= g.p75 <= g.p90
  {
    if f == Text(IntToString(n)) {
      ParseIntRoundTrip(n);
    }
    var o := OfferedSalary(f);
    if o >= 0 {
      var r := o as real;
      TruncateMonotone(r * 0.85, r * 0.95);
      TruncateMonotone(r * 0.95, r);
      TruncateMonotone(r, r * 1.12);
      TruncateMonotone(r * 1.12, r * 1.15);
      TruncateMonotone(r * 1.15, r * 1.30);
    }
  }

  datatype SalaryReply<J> = SalaryFromModel(value: J) | SalaryFallback(figures: SalaryFigures)

  /** `generate_salary_negotiation_strategy`: the model's JSON, or the fallback built on the offer. */
  function SalaryStrategy<J>(offer: SalaryField, gen: Generation, parse: string -> Option<J>): (r: SalaryReply<J>)
    ensures r.SalaryFallback? <==> gen.GenerationFailed? || parse(ExtractJson(gen.text)).None?
    ensures r.SalaryFallback? ==> r.figures.median == OfferedSalary(offer)
  {
    match JsonEndpoint(gen, parse)
    case ModelJson(j) => SalaryFromModel(j)
    case ErrorReply => SalaryFallback(SalaryFiguresOf(OfferedSalary(offer)))
  }
}
