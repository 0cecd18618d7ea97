# advisor — a Dafny model of the career-advisor core

This project models the deterministic core of the career-advisor backend:

- the three interview and assessment session engines;
- the scoring, ranking and text-assembly rules that sit around them.

It states and proves what these promise. The model has one Dafny module per source file, plus four shared modules.

| module | file | models |
|---|---|---|
| `InterviewPrep` | interview_prep.dfy | the AI interview preparation engine: question selection by type and difficulty, the per-user session (current question, answers, feedback), the keyword, STAR-cue and design-concept analysers, the max-merge with a coach model's score, completion, the final report, category averages, consolidated strengths and improvements, recommendations and insights (`modules/ai_interview_prep.py`) |
| `SkillAssessment` | skill_assessment.dfy | the skill assessment questionnaire: the session, the (phase, question) cursor, the table-driven score increments and progress (`modules/ai_skill_assessment.py`) |
| `AssessmentReport` | assessment_report.dfy | the maximum possible score, the final scores, category and overall scores, strengths and weaknesses, skill levels, the recommendations, report, history and trend insights of the skill assessment |
| `AssessmentEngine` | assessment_engine.dfy | the assessment engine class that holds the sessions and the store of finished assessments |
| `SkillBank` | skill_bank.dfy | the fixed question bank of the skill assessment (ids, types, skill mappings and weights) |
| `MockInterview` | mock_interview.dfy | the five-question mock interview: parallel question, answer and score lists, the question counter, question generation with its fallback, the continue/finish rule and the completion score (`modules/advanced_mock_interview.py`) |
| `Career` | career.dfy | the career recommender: the database merge, compatibility scores, the top five, reasons, the compatibility summary, the skill roadmap and market demand (`modules/career_recommender.py`) |
| `LearningPlanner` | learning_planner.dfy | skill gaps, course, certification and project recommendations, completion times, the week-by-week timeline, metrics, goals and the plan (`modules/learning_planner.py`) |
| `ResumePrep` | resume_prep.dfy | the ATS score and advice, section customisation, ATS keywords, skill questions, project and skill categories, skill priorities, keywords by section, the format helpers and the plain-text resume (`modules/resume_prep.py`) |
| `JobMarket` | job_market.dfy | skill match, opportunity score, top industries, emerging trends, skill demand, emerging roles and market insights (`modules/job_market_analysis.py`) |
| `SkillMapping` | skill_mapping.dfy | the matched/gap partition, the counts, strengths and improvement areas of the skill analysis (`modules/skill_mapping.py`) |
| `Gemini` | gemini.dfy | the code-fence JSON extraction, the ATS score and tips of a generated resume, the resume and interview-question fallbacks and defaults, and the salary fallback (`modules/gemini_ai_engine.py`) |
| `Ranking` | ranking.dfy | frequency counts, "most common" with ties in first-occurrence order, and grouping with averages |
| `Common` | common.dfy | `Option`, Python dicts as ordered key-value sequences, filters, stable sorting, `random.shuffle` over given draws, means and maxima |
| `Text` | text.dfy | ASCII case mapping, substring search, `strip`, `split`, `join`, `int()` on text and integer-to-text |

State that the source updates in place is modelled with classes:

- `InterviewPrep.Engine`, `AssessmentEngine.Assessment`, `MockInterview.Interviewer` and `Career.Recommender` hold the live sessions and stores as fields.
- Their methods say the whole new state, in terms of functions over session values. Lemmas about those functions state the promised properties.

Loops in the source are `while`/`for` loops here. Each one is proved against a reference function, and the lemmas are stated about that function.

The language models, the database, the clock and the random generator do not appear in the model. Their results are parameters instead:

- a model reply, or the fact that the call raised;
- a clock reading;
- the random draws.

Scores are `real`s.

The model follows the code, also where the code departs from the documented intent:

- The interview preparation engine starts a session even when no question matches. The session then has no question, and the reply's question is `None`; the start does not fail. Every submit to it answers "no more questions".
- Only the interview preparation engine rejects a submit after completion. The skill assessment accepts further submits. After the last answer the cursor is back at the first question of the last phase, so later submits walk that phase again, and the assessment completes again at its end. The mock interview keeps filing answers and completing.
- Finished sessions stay in the engines' session tables; they are not evicted.
- The coach model's merge is applied key by key. A malformed key stops the merge, but the updates made before it stay in the feedback. The feedback is not rolled back to the baseline.
- For a "mixed" interview no analyser runs, so its baseline score is 0.
- The duration is `int()` of the minutes, which truncates toward zero. For a non-negative span this is the floor.

There are two exceptions, the defects listed under "## Findings". For each one the rule as written is modelled and its consequence proved. The session engines, however, run the corrected rule, and the members concerned are named under "## Left out".

## Model

| member | source | states |
|---|---|---|
| InterviewPrep.TypeNameRoundTrip | modules/ai_interview_prep.py:163-166 | the session and the reply keep the interview type exactly as the caller named it, known or not |
| InterviewPrep.CollectPerGroup | modules/ai_interview_prep.py:195-198 | the gathering loop over the subcategories yields, group after group, the first `n` questions of each at the requested difficulty |
| InterviewPrep.SelectQuestions | modules/ai_interview_prep.py:190-216 | the selected questions are the gathered candidates, permuted by the given shuffle draws, cut to five |
| InterviewPrep.PerGroupMembers | modules/ai_interview_prep.py:195-198 | every question gathered per subcategory has the requested difficulty and comes from one of the subcategories |
| InterviewPrep.CandidatesAtLevel | modules/ai_interview_prep.py:192-212 | for every interview type, every candidate question has the requested difficulty |
| InterviewPrep.SelectionShape | modules/ai_interview_prep.py:190-216 | at most five questions, drawn without repetition from the candidates, all of the requested difficulty, and none for an interview type the engine does not know |
| InterviewPrep.SelectionFilterBound | modules/ai_interview_prep.py:214-216 | shuffling and cutting to five never raise the number of questions passing any test |
| InterviewPrep.PerGroupBound | modules/ai_interview_prep.py:195-198 | when a subcategory shares no question with the others, taking at most `n` per subcategory yields at most `n` of its questions |
| InterviewPrep.TechnicalAtMostTwoPerSubcategory | modules/ai_interview_prep.py:193-198 | a technical interview asks at most two questions of any one subcategory |
| InterviewPrep.MixedCandidatesPerSubcategory | modules/ai_interview_prep.py:203-212 | the mixed candidates hold at most one question of any technical subcategory |
| InterviewPrep.MixedAtMostOnePerSubcategory | modules/ai_interview_prep.py:203-216 | a mixed interview asks at most one question of any technical subcategory |
| InterviewPrep.MixedCandidatesPerList | modules/ai_interview_prep.py:203-212 | the mixed candidates hold at most one behavioral and at most one system-design question |
| InterviewPrep.MixedAtMostOnePerList | modules/ai_interview_prep.py:203-216 | a mixed interview asks at most one behavioral and at most one system-design question |
| InterviewPrep.KeywordScore | modules/ai_interview_prep.py:343-344 | the keyword coverage lies in [0, 100] (0 when the question expects no keyword) |
| InterviewPrep.StructureScore | modules/ai_interview_prep.py:347-348 | the length score lies in [0, 100] and is three points a word up to 20 words |
| InterviewPrep.CueHits | modules/ai_interview_prep.py:394-399 | one flag per cue group, set exactly when the lower-cased answer contains one of the group's words |
| InterviewPrep.CueScore | modules/ai_interview_prep.py:401 | the share of cue groups hit lies in [0, 100] |
| InterviewPrep.TechnicalScore | modules/ai_interview_prep.py:340-352 | the technical score (0.6 keyword coverage, 0.4 length) lies in [0, 100] |
| InterviewPrep.TechnicalFeedback | modules/ai_interview_prep.py:337-386 | the technical analysis records a score in [0, 100] |
| InterviewPrep.BehavioralScore | modules/ai_interview_prep.py:394-409 | the behavioral score (0.6 STAR cues, 0.4 keyword coverage) lies in [0, 100] |
| InterviewPrep.BehavioralFeedback | modules/ai_interview_prep.py:388-439 | the behavioral analysis records a score in [0, 100] |
| InterviewPrep.SystemDesignScore | modules/ai_interview_prep.py:447-463 | the system-design score (0.6 of five concept groups, 0.4 keyword coverage) lies in [0, 100] |
| InterviewPrep.SystemDesignFeedback | modules/ai_interview_prep.py:441-493 | the system-design analysis records a score in [0, 100] |
| InterviewPrep.BaselineFeedback | modules/ai_interview_prep.py:315-335 | the baseline score lies in [0, 100], the sample answer is copied from the question, and for "mixed" or an unknown type no analyser runs, so the blank feedback with score 0 is returned |
| InterviewPrep.KeywordsPartition | modules/ai_interview_prep.py:342-367 | found and missing keywords split the expected ones (as multisets), a keyword being found exactly when the lower-cased answer contains it lower-cased |
| InterviewPrep.FullCoverageTechnical | modules/ai_interview_prep.py:341-367 | an answer mentioning every expected keyword scores at least 60, earns the technical-knowledge strength and misses no keyword |
| InterviewPrep.EmptyAnswerKeywords | modules/ai_interview_prep.py:342-367 | an empty answer finds none of the (non-empty) expected keywords and misses all of them |
| InterviewPrep.EmptyTechnicalScore | modules/ai_interview_prep.py:340-352 | an empty technical answer scores 0 |
| InterviewPrep.EmptyTechnicalImprovements | modules/ai_interview_prep.py:362-369 | an empty technical answer gets exactly the three improvement remarks, in order, the last naming every expected keyword |
| InterviewPrep.FullStarBehavioral | modules/ai_interview_prep.py:394-414 | a behavioral answer hitting all four STAR groups scores at least 60 and earns the STAR strength |
| InterviewPrep.Union | modules/ai_interview_prep.py:263-265 | `list(set(a + b))` holds no duplicate and exactly the remarks of either list |
| InterviewPrep.MergeCoach | modules/ai_interview_prep.py:253-269 | the coach merge never lowers the score (it becomes the maximum of the baseline and the reply's score), keeps the analysis and sample answer, only adds remarks, adds at most one suggestion, and changes nothing when there is no reply or its score is unusable |
| InterviewPrep.CoachMergeComplete | modules/ai_interview_prep.py:259-266 | a reply without an unusable key leaves exactly the union of the old and the coach's remarks and appends its recommendation |
| InterviewPrep.CoachMergeStopsAtStrengths | modules/ai_interview_prep.py:259-268 | an unusable strengths value aborts the merge after the score update: remarks and suggestions stay as they were |
| InterviewPrep.AddTip | modules/ai_interview_prep.py:289-292 | the second coach's tip, stripped, is appended to the suggestions when it is not empty, and nothing else changes |
| InterviewPrep.AnswerScoreBounds | modules/ai_interview_prep.py:235-294 | the stored score is never below the analyser's, and stays at most 100 when the coach's score does |
| InterviewPrep.NewSession | modules/ai_interview_prep.py:163-173 | a new session is well formed, at question 0, with no answers, no feedback and no end time |
| InterviewPrep.AnsweredWellFormed | modules/ai_interview_prep.py:229-297 | recording an answer keeps a session well formed |
| InterviewPrep.AnsweredStores | modules/ai_interview_prep.py:229-294 | recording stores exactly one answer and one feedback, under the current question's id; every other id keeps its entries |
| InterviewPrep.Progress | modules/ai_interview_prep.py:310 | progress in the middle of an interview lies strictly between 0 and 100 |
| InterviewPrep.FeedbackScores | modules/ai_interview_prep.py:502 | one score per feedback entry, in insertion order |
| InterviewPrep.OverallScoreBounds | modules/ai_interview_prep.py:502-503 | the overall score, the mean of the per-question scores, lies within any bounds those scores respect |
| InterviewPrep.QuestionScores | modules/ai_interview_prep.py:550-558 | one entry per answered id, paired (as the source's `enumerate` does) with the question at the same position |
| InterviewPrep.CategoryScores | modules/ai_interview_prep.py:629-650 | the loop yields, per category in first-seen order, the mean of the scores of its answered questions |
| InterviewPrep.CategoryScoreBounds | modules/ai_interview_prep.py:629-650 | every category average lies within any bounds the per-question scores respect |
| InterviewPrep.ConsolidateRemarks | modules/ai_interview_prep.py:652-678 | the consolidated strengths or improvements are the five most frequent remarks (see `Ranking.MostCommon*`) |
| InterviewPrep.Detailed | modules/ai_interview_prep.py:680-698 | at most one entry per question, numbered by the question's 1-based position, only for questions with feedback, in increasing order |
| InterviewPrep.ConsolidateDetailed | modules/ai_interview_prep.py:680-698 | the loop builds exactly the detailed entries `Detailed` describes |
| InterviewPrep.BuildFinalReport | modules/ai_interview_prep.py:538-563 | the report holds summary, per-question scores, category averages, the consolidated remarks and the detailed entries |
| InterviewPrep.RecommendationsFor | modules/ai_interview_prep.py:565-619 | the "fundamentals" actions exactly below 60, the "advanced" ones exactly from 80; study resources exactly for technical and behavioral interviews |
| InterviewPrep.TierMonotone | modules/ai_interview_prep.py:574-596 | a higher score never gets a lower tier of immediate actions |
| InterviewPrep.AfterSubmit | modules/ai_interview_prep.py:294-301 | after a submit the session is well formed, has the same questions and is one question further; an unfinished session still has a question to ask (see also lines 497-498) |
| InterviewPrep.SubmitOn | modules/ai_interview_prep.py:218-227 | an unknown user or a finished session yields the matching error and leaves sessions and saved interviews unchanged |
| InterviewPrep.SubmitKeepsWellFormed | modules/ai_interview_prep.py:218-313 | a submit keeps every open session well formed |
| InterviewPrep.RecordTouchesOneSession | modules/ai_interview_prep.py:218-313 | recording an answer changes only the submitting user's session |
| InterviewPrep.RecordAdvances | modules/ai_interview_prep.py:297 | the submitting user's session keeps its questions and moves on by exactly one |
| InterviewPrep.RecordStoresAnswer | modules/ai_interview_prep.py:229-294 | the session gains exactly the new answer and feedback under the current question's id |
| InterviewPrep.RecordCompletesOnLast | modules/ai_interview_prep.py:299-313 | the interview completes (end time set, one interview saved, completion reply) exactly on the last question; otherwise the reply carries the next question and the feedback (see also lines 495-536) |
| InterviewPrep.Submit | modules/ai_interview_prep.py:294-313 | the imperative submit step leaves the session `AfterSubmit` describes and returns the matching reply |
| InterviewPrep.SubmitTo | modules/ai_interview_prep.py:218-313 | the submit on the session table does exactly what `SubmitOn` states |
| InterviewPrep.LowestIndex | modules/ai_interview_prep.py:810 | the position of the first lowest average |
| InterviewPrep.RecommendedFocus | modules/ai_interview_prep.py:805-818 | "start with technical" exactly when there is no history; otherwise the advice for the weakest type by the 60 and 80 thresholds |
| InterviewPrep.HistoryScores | modules/ai_interview_prep.py:779 | one score per saved interview, in history order |
| InterviewPrep.InsightsProperties | modules/ai_interview_prep.py:777-803 | the average never exceeds the best score, averages stay within the scores' bounds, and the trend is "improving" exactly when there are two or more interviews and the newest beats the oldest |
| InterviewPrep.Engine.constructor | modules/ai_interview_prep.py:18-22 | the engine starts with no open session and nothing saved |
| InterviewPrep.Engine.StartMockInterview | modules/ai_interview_prep.py:155-188 | the user's session (a clock-based id for an empty user id) is replaced by a fresh one over the selected questions; the reply carries the first question, or none when nothing matched |
| InterviewPrep.Engine.SubmitAnswer | modules/ai_interview_prep.py:218-313 | the engine's sessions, saved interviews and reply are those `SubmitOn` gives, and every session stays well formed |
| InterviewPrep.Engine.InterviewInsights | modules/ai_interview_prep.py:771-803 | no insights exactly when the user has no saved interview, otherwise the insights over the newest-first history |
| Ranking.Tally | modules/ai_interview_prep.py:660-662 | one entry per distinct remark, in first-occurrence order (the count dict's insertion order), paired with its number of occurrences |
| Ranking.TallyStep | modules/ai_interview_prep.py:662 | one more item raises its count by one, or appends it with count 1 when it is new |
| Ranking.CountOne | modules/ai_interview_prep.py:662 | one step of the counting loop turns the tally of a prefix into the tally of the prefix one longer |
| Ranking.CountOccurrences | modules/ai_interview_prep.py:660-662 | the counting loop builds exactly the tally of its input |
| Ranking.TallyDistinct | modules/ai_interview_prep.py:660-662 | the tally holds no entry twice |
| Ranking.MostCommonShape | modules/ai_interview_prep.py:664-678 | the consolidated remarks are distinct, at most `n`, and each occurs in the input |
| Ranking.MostCommonOrdered | modules/ai_interview_prep.py:664-678 | the consolidated remarks come in non-increasing order of frequency |
| Ranking.MostCommonDominates | modules/ai_interview_prep.py:664-678 | a remark left out occurs no more often than any remark kept |
| Ranking.MostCommonFull | modules/ai_interview_prep.py:664-678 | a remark is left out only when `n` remarks are kept |
| Ranking.MostCommonTiesInFirstOccurrenceOrder | modules/ai_interview_prep.py:664-678 | the stable sort keeps remarks of equal frequency in first-occurrence order |
| Ranking.GroupsKeys | modules/ai_interview_prep.py:633-644 | the grouping has one entry per category, in first-seen order |
| Ranking.GroupsGet | modules/ai_interview_prep.py:633-644 | a category's group holds exactly its scores in order, and is absent exactly when the category never occurs |
| Ranking.MeansOf | modules/ai_interview_prep.py:646-649 | the same categories, each with the mean of its scores |
| Ranking.GroupMeans | modules/ai_interview_prep.py:629-650 | the grouping-then-averaging loops compute the per-category means |
| Ranking.AverageEach | modules/ai_interview_prep.py:646-649 | the averaging loop replaces each group by its mean |
| Ranking.GroupMeanBounds | modules/ai_interview_prep.py:646-649 | every group mean lies within any bounds the scores respect |
| SkillAssessment.PyIndex | modules/ai_skill_assessment.py:361-362 | Python list indexing succeeds exactly for indices from `-len` to `len - 1` |
| SkillAssessment.MaxLevel | modules/ai_skill_assessment.py:452 | the top level of a non-empty list: no level exceeds it and one level equals it |
| SkillAssessment.NegativeAnswerAsWritten | modules/ai_skill_assessment.py:349-363 | as written, an answer of -1 earns a skill its top level (4 on a 0..4 scale) and an answer below `-len` makes the update raise |
| SkillAssessment.IncrementCorrected | modules/ai_skill_assessment.py:361-363 | the corrected increment agrees with the source on every non-negative answer, earns nothing for a negative one, and never exceeds the top level |
| SkillAssessment.BumpGet | modules/ai_skill_assessment.py:346-363 | one skill's update sets that skill to its old score (0 when new) plus the increment, and leaves every other skill as it was |
| SkillAssessment.UpdatedScoresGet | modules/ai_skill_assessment.py:340-363 | after an answer every mapped skill holds its old score (0 when new) plus its increment, and every unmapped skill is unchanged |
| SkillAssessment.UpdatedScoresDistinct | modules/ai_skill_assessment.py:346-347 | the skill scores stay a dict: no skill gets two entries |
| SkillAssessment.UpdateSkillScores | modules/ai_skill_assessment.py:340-363 | the update loop adds, for each mapped skill in order, the increment of the answer index to its score (initialised to 0) |
| SkillAssessment.UpdatedScoresNonNegative | modules/ai_skill_assessment.py:346-363 | skill scores start at 0 and only grow, so none is ever negative |
| SkillAssessment.SessionUser | modules/ai_skill_assessment.py:228-229 | the given user id is kept; an empty one is replaced by a non-empty id built from the clock |
| SkillAssessment.NewSession | modules/ai_skill_assessment.py:231-240 | a new session is at the first phase, question 0, with no responses, no scores, no completed phase and no end time |
| SkillAssessment.NewSessionWellFormed | modules/ai_skill_assessment.py:231-240 | a new session points at an item of the bank |
| SkillAssessment.NewSessionOnTrack | modules/ai_skill_assessment.py:231-240 | a new session has answered nothing and completed no phase |
| SkillAssessment.CurrentQuestion | modules/ai_skill_assessment.py:321-338 | a question is shown exactly when the cursor points inside the bank, with its item and its 1-based number |
| SkillAssessment.ProgressBounds | modules/ai_skill_assessment.py:365-376 | progress is a percentage of the whole bank, and reads 100 exactly when as many ids are answered as the bank holds |
| SkillAssessment.AdvanceEffect | modules/ai_skill_assessment.py:256-309 | a submit files the answer under the current id and updates the scores; the cursor moves to the next item, or at the end of a phase records it as completed and moves to the first item of the next phase; the assessment completes exactly after the last phase's last item |
| SkillAssessment.AdvanceWellFormed | modules/ai_skill_assessment.py:256-309 | a submit keeps the session pointing inside the bank, with answers filed under bank ids |
| SkillAssessment.FiledAnswerInBank | modules/ai_skill_assessment.py:266-267 | the answer is filed under an id of the bank, and the responses stay a dict |
| SkillAssessment.AdvancePosition | modules/ai_skill_assessment.py:294-306 | the cursor advances by exactly one item over the whole bank, and the assessment completes exactly at the bank's last item |
| SkillAssessment.IdAtPosition | modules/ai_skill_assessment.py:266 | the id at the cursor is the bank's id at the cursor's position |
| SkillAssessment.AdvanceKeys | modules/ai_skill_assessment.py:266-267 | answering in order, the answered ids are always the bank's ids up to and including the cursor |
| SkillAssessment.AdvanceOnTrack | modules/ai_skill_assessment.py:294-306 | answering in order stays on track through every submit but the last, which leaves every phase completed, in bank order, and every id answered |
| SkillAssessment.CompletedInFull | modules/ai_skill_assessment.py:294-376 | an assessment completed in order reports 100 percent progress |
| AssessmentReport.TopLevel | modules/ai_skill_assessment.py:450-452 | one item's largest level for a skill (0 when the item does not map it) bounds every increment the skill can earn from that item |
| AssessmentReport.ItemsMaxStep | modules/ai_skill_assessment.py:448-452 | each item visited adds its top level for the skill to the running maximum |
| AssessmentReport.MaxPossibleScore | modules/ai_skill_assessment.py:445-453 | the nested loop over phases and items sums, over every item mapping the skill, its largest level |
| AssessmentReport.RawWithinMax | modules/ai_skill_assessment.py:445-453 | the raw score any sequence of answers earns for a skill lies between 0 and the computed maximum (see also lines 340-363) |
| AssessmentReport.BankMappingsValid | modules/ai_skill_assessment.py:448-452 | every item of the flattened bank has a well-formed skill mapping |
| AssessmentReport.FinalScoreBounds | modules/ai_skill_assessment.py:437-440 | a normalised score lies in [0, 100]: 0 when the maximum is 0, `raw / max * 100` up to the maximum, and 100 from the maximum on |
| AssessmentReport.FinalScores | modules/ai_skill_assessment.py:431-443 | one final score for each skill with a raw score, under the same skill names in the same order |
| AssessmentReport.FinalScoresWithin | modules/ai_skill_assessment.py:431-443 | every final score lies in [0, 100] |
| AssessmentReport.InOrderNotCapped | modules/ai_skill_assessment.py:437-453 | after one pass through the bank the cap at 100 never bites: the final score is exactly `raw / max * 100` |
| AssessmentReport.CategoryContents | modules/ai_skill_assessment.py:467-473 | a category lists exactly its skills that have a final score, in category order, with their scores |
| AssessmentReport.CategoryAverageBounds | modules/ai_skill_assessment.py:475-476 | a category average lies in [0, 100], and is 0 when none of its skills has a score |
| AssessmentReport.CategoryResults | modules/ai_skill_assessment.py:458-476 | one result per category, in the order of the category table |
| AssessmentReport.OverallScore | modules/ai_skill_assessment.py:478-486 | the accumulation loop computes the weight-normalised mean over the categories with a positive average |
| AssessmentReport.WeightedSnoc | modules/ai_skill_assessment.py:480-484 | each category adds its weighted average and its weight only when its average is positive |
| AssessmentReport.WeightedBounds | modules/ai_skill_assessment.py:480-484 | the weighted sum stays within `hi` times the total weight, and both are positive exactly when some category average is positive |
| AssessmentReport.PositiveSnoc | modules/ai_skill_assessment.py:482 | some category has a positive average exactly when an earlier one or the last one does |
| AssessmentReport.OverallBounds | modules/ai_skill_assessment.py:478-486 | the overall score lies in [0, 100] and is positive exactly when some category average is positive (otherwise it is 0) |
| AssessmentReport.TopFiveSpec | modules/ai_skill_assessment.py:489-493 | strengths or weaknesses: at most five passing skills, by descending score; a passing skill left out means five were kept, none scoring below it |
| AssessmentReport.StrengthsWeaknessesDisjoint | modules/ai_skill_assessment.py:492-493 | no skill is both a strength (at least 70) and a weakness (below 40) |
| AssessmentReport.SkillLevel | modules/ai_skill_assessment.py:551-562 | the level's rank is the number of thresholds 20, 40, 60, 80 the score reaches |
| AssessmentReport.ReachedLevels | modules/ai_skill_assessment.py:553-562 | the thresholds reached, counted one by one |
| AssessmentReport.SkillLevelMonotone | modules/ai_skill_assessment.py:551-562 | a higher score never gets a lower level |
| AssessmentReport.DevelopmentPlanSpec | modules/ai_skill_assessment.py:515-522 | exactly the skills scoring below 50, in the order of the final scores, each with its level and priority High exactly when below 30 |
| AssessmentReport.CareerPathsOfSpec | modules/ai_skill_assessment.py:526-531 | each of the three paths is suggested exactly when its own pair of skills is strong; no path twice |
| AssessmentReport.StrongSpec | modules/ai_skill_assessment.py:525 | a skill is strong exactly when it has a final score of at least 70 |
| AssessmentReport.CareerPathsSpec | modules/ai_skill_assessment.py:525-531 | Data Scientist exactly for strong Python and Data Analysis, Project Manager for strong Communication and Leadership, Full Stack Developer for strong JavaScript and Python; at most three, none twice |
| AssessmentReport.LearningResourcesSpec | modules/ai_skill_assessment.py:534-592 | resources for the first three skills to develop, in order: the catalogue's list, or the general default for a skill it lacks |
| AssessmentReport.CoachingTipsSpec | modules/ai_skill_assessment.py:541-547 | coaching tips appear exactly when the coach gave some, as its first five; always five next steps and at most three resource entries (see also lines 407-418) |
| AssessmentReport.ReportBounds | modules/ai_skill_assessment.py:455-503 | the report's overall score and category averages lie in [0, 100], at most five strengths and five weaknesses, and none in both |
| AssessmentReport.HistorySpec | modules/ai_skill_assessment.py:638-663 | the history holds exactly the user's saved results; a new result of the user comes first; another user's result leaves it unchanged |
| AssessmentReport.Compare | modules/ai_skill_assessment.py:688-694 | the improvement is the difference, "improving" exactly when it rose and "declining" exactly when it fell |
| AssessmentReport.ProgressEntriesSpec | modules/ai_skill_assessment.py:686-694 | progress entries are the latest skills that also have a previous score, in latest order, each with both scores |
| AssessmentReport.InsightsSpec | modules/ai_skill_assessment.py:665-701 | with two results, the latest is reported; improvement areas are the skills that rose by more than 10, maintained strengths the others still at least 70, and none is in both |
| AssessmentReport.ImprovedApartFromMaintained | modules/ai_skill_assessment.py:696-699 | no skill is both an improvement area and a maintained strength |
| AssessmentEngine.SubmitOn | modules/ai_skill_assessment.py:258-259 | a submit for an unknown user answers "session not found" and changes nothing |
| AssessmentEngine.SubmitKeepsWellFormed | modules/ai_skill_assessment.py:256-309 | every open session stays well formed through a submit |
| AssessmentEngine.StoreWellFormed | modules/ai_skill_assessment.py:266-267 | storing a well-formed session keeps the table well formed |
| AssessmentEngine.SubmitEffect | modules/ai_skill_assessment.py:256-309 | only the submitting user's session changes; its scores are updated; the assessment completes exactly at the bank's last item, and then the end time is set, one result is saved and its final scores are returned; otherwise nothing is saved and the next question is returned (see also lines 378-429) |
| AssessmentEngine.ComputeFinalScores | modules/ai_skill_assessment.py:431-443 | the normalising loop yields exactly the final scores |
| AssessmentEngine.Assessment.constructor | modules/ai_skill_assessment.py:17-21 | the engine starts with no open session and nothing saved |
| AssessmentEngine.Assessment.StartAssessment | modules/ai_skill_assessment.py:226-254 | the user's session (a clock-based id for an empty user id) is replaced by a new one at the first phase; the reply shows its first question and zero progress |
| AssessmentEngine.Assessment.SubmitAnswer | modules/ai_skill_assessment.py:256-309 | the engine's sessions, saved results and reply are those `SubmitOn` gives, and every session stays well formed |
| AssessmentEngine.Assessment.AssessmentHistory | modules/ai_skill_assessment.py:638-663 | exactly the user's saved results, newest first |
| AssessmentEngine.Assessment.SkillInsightsFor | modules/ai_skill_assessment.py:665-701 | the insights over the user's history, "no history" exactly when the user saved nothing |
| SkillBank.TechnicalItemsValid | modules/ai_skill_assessment.py:26-78 | every technical item maps each skill once, to some levels |
| SkillBank.SoftItemsValid | modules/ai_skill_assessment.py:79-131 | every soft-skill item maps each skill once, to some levels |
| SkillBank.StandardBankShape | modules/ai_skill_assessment.py:23-199 | the shipped bank is valid: four non-empty phases with 19 items in all |
| SkillBank.StandardCategoriesValid | modules/ai_skill_assessment.py:201-224 | the four categories have positive weights and list no skill twice |
| MockInterview.RoleQuestionsAreSoftwareEngineer | modules/advanced_mock_interview.py:576 | every role, known or not, reads the software-engineer fallback list |
| MockInterview.FallbackQuestionSpec | modules/advanced_mock_interview.py:556-579 | the fallback question is entry `n % 2` of that list, always has a text, carries the requested number, and repeats every two numbers |
| MockInterview.AskSpec | modules/advanced_mock_interview.py:186-210 | generation stores exactly one question, the one returned, and changes nothing else; as written, only a model reply sets the question number, the fallback path leaves it as it was; the corrected version records it on both paths |
| MockInterview.ScoreOf | modules/advanced_mock_interview.py:339-347 | the filed score is 5.0 when the evaluation fails, the reply's `score` (0 when absent) for a JSON object, and nothing (the submit raises) for any other JSON value (see also line 242) |
| MockInterview.SubmitAsWritten | modules/advanced_mock_interview.py:212-286 | as written, a submit never leaves the session without questions |
| MockInterview.Submit | modules/advanced_mock_interview.py:212-286 | with the corrected generation, a submit never leaves the session without questions |
| MockInterview.SubmitSpec | modules/advanced_mock_interview.py:227-286 | a submit fails exactly when the last question has no text (nothing changes) or the evaluation is not a JSON object (only the answer is appended, line 241, before the score's `.get` raises, line 242); otherwise it files exactly one answer and one score, continues exactly while the counter is below 5 (asking one more question), and only a finishing submit yields a completion, scored with the average of all filed scores |
| MockInterview.StartedPaced | modules/advanced_mock_interview.py:108-121 | a started session has one question, numbered 1, no answers and no scores, and keeps answers and scores in step |
| MockInterview.StorePaced | modules/advanced_mock_interview.py:108-119 | storing a session that keeps its bookkeeping keeps every session's |
| MockInterview.SubmitPaced | modules/advanced_mock_interview.py:238-277 | a submit keeps no more scores than answers and the counter equal to the questions asked, one more than the scores until five, and finishes exactly when it files the fifth score or a later one |
| MockInterview.AskKeepsAsked | modules/advanced_mock_interview.py:186-210 | generation keeps every stored question with a text when the reply has one (fallback questions always do) |
| MockInterview.Answered | modules/advanced_mock_interview.py:212-286 | a run of submits never leaves the session without questions |
| MockInterview.AnsweredPaced | modules/advanced_mock_interview.py:212-286 | whatever texted questions the generator supplies, a run of submits keeps the bookkeeping and files one answer and one score per submit |
| MockInterview.FifthAnswerFinishes | modules/advanced_mock_interview.py:255-277 | with generation recording the counter, after a start four answers (and four scores) continue the interview and the fifth finishes it, whether the generator answers or fails (see also line 121) |
| MockInterview.StalledRun | modules/advanced_mock_interview.py:199-270 | a run of submits under a failing generator, as written, never leaves the session without questions |
| MockInterview.StalledRunNeverFinishes | modules/advanced_mock_interview.py:199-270 | as written, while the generator fails the counter never moves: every answer is filed and the interview continues, however many answers are given |
| MockInterview.StartWithFailingGeneratorStalls | modules/advanced_mock_interview.py:113-210 | as written, a start whose generator fails leaves the counter at 0, so the interview never finishes while the generator keeps failing |
| MockInterview.SessionId | modules/advanced_mock_interview.py:94 | the session id is the user id, an underscore, and the clock reading in decimal (it parses back to the reading) |
| MockInterview.SubmitOn | modules/advanced_mock_interview.py:222-225 | an unknown session id answers "session not found" and changes nothing |
| MockInterview.SubmitOnFails | modules/advanced_mock_interview.py:227-284 | a submit that raises leaves the completions unchanged and the table unchanged when the last question has no text, or with only the answer appended to the session when the evaluation is not a JSON object (see also lines 241-242) |
| MockInterview.SubmitOnContinues | modules/advanced_mock_interview.py:238-269 | below five, the session files the answer and score and asks question `question_number + 1`; nothing is completed |
| MockInterview.SubmitOnFinishes | modules/advanced_mock_interview.py:238-277 | from five on, the session files the answer and score, the report is built and one completion with the average score is recorded |
| MockInterview.SubmitOnSpec | modules/advanced_mock_interview.py:212-286 | a submit keeps every session's bookkeeping, touches only its own session, records a completion exactly when it finishes, and when it fails keeps the session's questions and scores, at most appending the answer |
| MockInterview.CompletionScoreBounds | modules/advanced_mock_interview.py:540 | scores on the ten-point scale give a completion score, their average, on the same scale (see also line 357) |
| MockInterview.Interviewer.constructor | modules/advanced_mock_interview.py:40 | the interviewer starts with no open session and no completion |
| MockInterview.Interviewer.GenerateQuestion | modules/advanced_mock_interview.py:136-210 | the session gains the model's question or the fallback one, numbered, with the counter recorded; the reply marks which it was |
| MockInterview.Interviewer.StartInterviewSession | modules/advanced_mock_interview.py:80-128 | the session `user_clock` is replaced by a fresh one that has been asked question 1; the reply carries the start message and that question |
| MockInterview.Interviewer.FileAnswer | modules/advanced_mock_interview.py:241-242 | the session's answers and scores each grow by exactly one entry |
| MockInterview.Interviewer.FileAndAdvance | modules/advanced_mock_interview.py:238-277 | filing and then asking or completing does exactly what `SubmitOn` states |
| MockInterview.Interviewer.SubmitAnswer | modules/advanced_mock_interview.py:212-286 | the interviewer's sessions, completions and reply are those `SubmitOn` gives, and every session keeps its bookkeeping |
| Career.MergedSpec | modules/career_recommender.py:221-225 | after the merge, a title from the built-in catalogue reads the catalogue's data, every other title reads the stored data; no stored title is lost and no title is invented |
| Career.Recommender.constructor | modules/career_recommender.py:7-10 | the recommender starts with the career rows it is given |
| Career.Recommender.AddComprehensiveCareerData | modules/career_recommender.py:39-225 | the database becomes the merge of the old database with the catalogue |
| Career.SkillScoreBounds | modules/career_recommender.py:273-274 | for a skill list without repeats, the matches never exceed the required skills, the skill score lies in [0, 100], and it is 100 when every required skill (without repeats) is held |
| Career.MissingSkillsSpec | modules/career_recommender.py:292 | a skill is missing exactly when it is required and not held; there are never more missing skills than required ones |
| Career.CalculateInterestAlignment | modules/career_recommender.py:297-320 | the loop counts each interest at most once, when some keyword of the industry occurs in it ignoring case, and computes the same alignment as the reference definition |
| Career.InterestAlignmentBounds | modules/career_recommender.py:297-320 | the alignment lies in [0, 100], and an industry outside the keyword table aligns 0 with any non-empty interest list |
| Career.MarketScore | modules/career_recommender.py:322-333 | the market score is clamped to [0, 100]; inside that range it is `min(5 * growth, 100)` plus the noise, and it sits at a bound only when the unclamped value reached it |
| Career.ScoreCareerBounds | modules/career_recommender.py:265-293 | for a skill list without repeats, every part score and the weighted total lie in [0, 100] |
| Career.CareerScores | modules/career_recommender.py:265-295 | one score is made for every career of the database, under its title |
| Career.CalculateCareerScores | modules/career_recommender.py:265-295 | the loop builds the same table as `CareerScores` |
| Career.CareerScoresBounds | modules/career_recommender.py:265-295 | every total in the table lies in [0, 100] |
| Career.TopCareersSpec | modules/career_recommender.py:240 | the top careers are the five best (or all, when fewer), drawn from the table, in descending score order; a career left out scores no more than each of the five |
| Career.ReasonsOfSpec | modules/career_recommender.py:352-372 | each reason appears exactly when its threshold holds, and the fallback reason appears exactly when no other does |
| Career.RecommendationReasonSpec | modules/career_recommender.py:352-372 | the explanation is never empty; "strong skills" exactly above 70, "good foundation" exactly in (40, 70], interests above 70, high growth above 10, stable growth in (5, 10], and the fallback exactly when none of them holds |
| Career.SummarySpec | modules/career_recommender.py:489-502 | an empty table gives the "no data" message; otherwise the average is at most the highest score, which bounds every score, the count above 70 is at most the number analysed, and any career above 70 triggers the "focus on top 3" advice |
| Career.AboveImpliesMax | modules/career_recommender.py:499-501 | a score above 70 makes the highest score pass the 60 threshold |
| Career.CollectMissingSkills | modules/career_recommender.py:660-666 | the loop groups the missing skills of the top careers exactly as the reference grouping |
| Career.AddCareerSpec | modules/career_recommender.py:662-666 | adding one career's missing skills makes each of them a key and lists that career under each, and nothing else |
| Career.MissingGroupsSpec | modules/career_recommender.py:660-666 | a skill is a key exactly when some top career misses it, and a title is listed under a skill exactly when that career misses it |
| Career.PrioritisedSpec | modules/career_recommender.py:668-673 | the skill priority is ordered by the number of careers needing each skill, descending, and takes only groups that exist |
| Career.Bucket | modules/career_recommender.py:684-698 | a skill needed by 3 or more careers is immediate, by exactly 2 short-term, by fewer medium-term, in priority order; every skill lands in exactly one bucket |
| Career.SkillRoadmap | modules/career_recommender.py:655-719 | no top careers gives the "no recommendations" message; otherwise each of the at most 12 prioritised skills goes into exactly one bucket: immediate is exactly those needed by 3 or more careers, short-term exactly those needed by 2, medium-term the rest, each in priority order; long-term stays empty, and each phase lists the first three skills of its bucket |
| Career.AssessMarketDemand | modules/career_recommender.py:721-744 | the assessment reports the growth rate it was given |
| Career.MarketDemandSpec | modules/career_recommender.py:721-744 | demand never falls as growth rises; "very high" exactly from 15, "low" exactly below 5; high competition implies high availability, which holds exactly from "high" demand up |
| LearningPlanner.CountMissing | modules/learning_planner.py:346-353 | adding one career's missing skills that the student lacks to the running counts gives the counts of the longer list |
| LearningPlanner.CountCandidates | modules/learning_planner.py:344-353 | the loop over the first three careers counts exactly the candidate skills, in first-seen order |
| LearningPlanner.IdentifySkillGaps | modules/learning_planner.py:341-365 | the loop builds the gaps of the reference definition |
| LearningPlanner.FlattenMembers | modules/learning_planner.py:346-348 | a skill occurs in the joined lists exactly when it occurs in one of them |
| LearningPlanner.CandidatesSpec | modules/learning_planner.py:346-349 | a skill is a candidate exactly when the student lacks it and one of the first three careers misses it |
| LearningPlanner.GapSkillsMostCommon | modules/learning_planner.py:356-365 | the gap skills are the eight most frequent candidates, most frequent first |
| LearningPlanner.SkillGapsEntries | modules/learning_planner.py:356-363 | each gap is a candidate, its priority is the number of the first three careers that miss it, and it lists every top career that misses it |
| LearningPlanner.SkillGapsSpec | modules/learning_planner.py:341-365 | at most eight gaps with distinct skills, by descending priority; a candidate left out means eight gaps, each at least as frequent as it |
| LearningPlanner.CareersNeedingSpec | modules/learning_planner.py:362 | a title appears under a gap exactly when some top career of that title misses the skill (all top careers, not only the first three) |
| LearningPlanner.CompletionTime | modules/learning_planner.py:419-426 | a duration without "weeks" comes back unchanged |
| LearningPlanner.CompletionTimeOfWeeks | modules/learning_planner.py:421-425 | "N weeks" is buffered to "N+1-N+2 weeks" |
| LearningPlanner.FirstWordOfWord | modules/learning_planner.py:424 | the first word of a word followed by a space is that word |
| LearningPlanner.WordPrefixOf | modules/learning_planner.py:424 | splitting stops at the first space |
| LearningPlanner.SuitableSpec | modules/learning_planner.py:402-409 | at most two courses are chosen, all from the skill's list, all at the gap's level when any course is, and at least one whenever the list is not empty |
| LearningPlanner.SuitableCourses | modules/learning_planner.py:400-415 | the recommendations for one gap, built course by course, are those of the reference definition |
| LearningPlanner.CollectCourses | modules/learning_planner.py:395-417 | the loop over the first five gaps gives the recommendations of the reference definition |
| LearningPlanner.CoursesForSkill | modules/learning_planner.py:398-415 | one gap yields at most two courses, all for its own skill |
| LearningPlanner.CourseRecsAbsent | modules/learning_planner.py:398-415 | a skill no gap names gets no course |
| LearningPlanner.CourseRecsPerSkill | modules/learning_planner.py:409 | with distinct gap skills, no skill gets more than two courses |
| LearningPlanner.RecommendCoursesSpec | modules/learning_planner.py:395-417 | the course recommendations are ordered by descending priority, at most two per skill, at most ten in all |
| LearningPlanner.CourseRecsLength | modules/learning_planner.py:409 | there are at most two courses per gap |
| LearningPlanner.CertRecsFrom | modules/learning_planner.py:432-442 | every certification recommendation comes from the catalogue entry of a gap's skill and carries that gap's priority |
| LearningPlanner.RecommendCertificationsSpec | modules/learning_planner.py:428-444 | the certifications are ordered by descending priority and each comes from one of the first three gaps, with its priority |
| LearningPlanner.ProjectsFor | modules/learning_planner.py:458-465 | a gap yields one project recommendation per catalogued project of its skill |
| LearningPlanner.NumberProjects | modules/learning_planner.py:458-465 | the loop numbers the gap's projects as the reference definition does |
| LearningPlanner.CollectProjects | modules/learning_planner.py:451-467 | the loop over the first four gaps gives the recommendations of the reference definition |
| LearningPlanner.ProjectOrders | modules/learning_planner.py:464 | the recommended orders are 1, 2, 3, … in the order the projects were collected |
| LearningPlanner.RecommendProjectsSpec | modules/learning_planner.py:451-467 | the project recommendations are a permutation of those collected from the first four gaps, ordered by descending priority, stable among equal priorities, and each keeps the order number it got when collected |
| LearningPlanner.Weeks | modules/learning_planner.py:478-564 | every activity takes at least two weeks |
| LearningPlanner.CourseActivities | modules/learning_planner.py:477-523 | one activity per course, all in the given phase |
| LearningPlanner.ProjectActivities | modules/learning_planner.py:498-501 | one activity per project, all in the application phase |
| LearningPlanner.CertActivities | modules/learning_planner.py:541-544 | one activity per certification, all in the certification phase |
| LearningPlanner.AppendPhase | modules/learning_planner.py:469-580 | appending a phase not earlier than the ones before keeps the phases in order |
| LearningPlanner.ActivitiesSpec | modules/learning_planner.py:469-580 | the timeline has 1 to 13 activities, phases never go back, and the eight-week portfolio comes last and only last |
| LearningPlanner.ScheduleOne | modules/learning_planner.py:481-494 | scheduling one activity at the next free week keeps the weeks contiguous and moves the next week on by its duration |
| LearningPlanner.SchedulePhase | modules/learning_planner.py:476-559 | scheduling a phase appends exactly its activities and keeps the weeks contiguous |
| LearningPlanner.CreateLearningTimeline | modules/learning_planner.py:469-580 | the timeline holds exactly the planned activities, in order, in contiguous weeks |
| LearningPlanner.ContiguousEntries | modules/learning_planner.py:473-494 | a contiguous timeline starts at week 1, each entry spans its duration, and each starts the week after the previous one ends |
| LearningPlanner.ContiguousOrdered | modules/learning_planner.py:473-565 | an earlier entry ends before a later one starts |
| LearningPlanner.EstimatedTotalTimeSpec | modules/learning_planner.py:609 | the estimate starts with two months per gap, in digits, up to the dash |
| LearningPlanner.ShortGoals | modules/learning_planner.py:633-639 | one short-term goal per chosen gap |
| LearningPlanner.MediumGoals | modules/learning_planner.py:642-648 | one medium-term goal per chosen gap |
| LearningPlanner.LongGoals | modules/learning_planner.py:651-657 | one long-term goal when there is a top career, none otherwise |
| LearningPlanner.TermCount | modules/learning_planner.py:628-659 | goals all of one term count only under that term |
| LearningPlanner.GoalsOfTerm | modules/learning_planner.py:628-659 | the goals of each term in the joined list are those of that term's part |
| LearningPlanner.LearningGoalsSpec | modules/learning_planner.py:628-659 | at most three short-term goals, at most two medium-term ones, exactly one long-term goal when there is a top career, at most six in all |
| LearningPlanner.AllCompletionTimes | modules/learning_planner.py:409-424 | the pass succeeds exactly when every course's completion time can be computed |
| LearningPlanner.GeneratePlan | modules/learning_planner.py:295-339 | no top careers gives the error; a course duration that fails to parse raises; otherwise the plan holds the gaps, courses, certifications, projects, a contiguous timeline of the planned activities, the metrics and the goals, each as the reference definitions give them |
| ResumePrep.AdviceLines | modules/resume_prep.py:1300-1315 | excellent advice is one line, good advice two, and the advice for a low score four |
| ResumePrep.CalculateAtsScore | modules/resume_prep.py:1270-1298 | the overall score is the raw score capped at 100, and the advice is chosen from the uncapped raw score |
| ResumePrep.AtsScoreSpec | modules/resume_prep.py:1273-1291 | the raw score lies in [40, 100], so the cap never bites, and it is 100 exactly when education, experience and skills are all present |
| ResumePrep.AtsScoreMonotone | modules/resume_prep.py:1276-1282 | supplying more of education, experience and skills never lowers the score |
| ResumePrep.AtsAdviceSpec | modules/resume_prep.py:1300-1315 | the advice is "excellent" exactly with skills and one of education or experience, "good" exactly with experience or skills otherwise, and the low-score advice exactly without experience and skills |
| ResumePrep.CustomizeSectionsSpec | modules/resume_prep.py:356-377 | the template's summary ends the new one, which changes exactly when skills are given and then names each of the first three; the education and experience formats change exactly when those fields are given; the other sections are kept |
| ResumePrep.OptimizeForAts | modules/resume_prep.py:379-388 | the loop collects the keywords of every skill, and the recommendation is the first fifteen distinct ones |
| ResumePrep.RelevantMembers | modules/resume_prep.py:383-385 | a keyword is collected exactly when it is listed under one of the skills |
| ResumePrep.OptimizeForAtsSpec | modules/resume_prep.py:379-388 | the recommended keywords are distinct, at most fifteen, and each belongs to one of the skills |
| ResumePrep.SkillSpecificQuestions | modules/resume_prep.py:457-484 | the questions follow the first five skills, keeping exactly the recognised ones in order, each with that skill's question; never more than five |
| ResumePrep.NonEmptyGroupsKeys | modules/resume_prep.py:616 | dropping empty groups keeps exactly the categories that have an entry |
| ResumePrep.CategorizeProjectsSpec | modules/resume_prep.py:595-616 | no category is empty; data science appears exactly with data analysis or Python, web development and automation exactly with Python, machine learning exactly with machine learning |
| ResumePrep.GroupSkillsByCategory | modules/resume_prep.py:760-779 | the loop files every skill under its category and drops the empty categories |
| ResumePrep.CategoryListsPartition | modules/resume_prep.py:767-777 | every skill lands in exactly one of the four categories, the one its rules give it |
| ResumePrep.Marked | modules/resume_prep.py:811-817 | one entry is made per skill |
| ResumePrep.PrioritizeSkillsSpec | modules/resume_prep.py:798-819 | each skill is marked high exactly when the career requires it (an unknown career requires all the skills); the result is a permutation of the marked list with all high skills first, each group in its original order |
| ResumePrep.UnknownCareerAllHigh | modules/resume_prep.py:809 | for a career outside the table every skill is high priority |
| ResumePrep.KeywordsBySectionSpec | modules/resume_prep.py:914-945 | each section's keywords are the base keywords followed by the career's own for that section (nothing more for an unknown career), and the skills section lists every skill given |
| ResumePrep.AchievementsRoundTrip | modules/resume_prep.py:1471-1507 | splitting the achievements at newlines and joining them back gives the text; there are none exactly when the text is missing or empty |
| ResumePrep.FormatExperience | modules/resume_prep.py:1460-1473 | one formatted entry per input, in order, with defaults for missing fields |
| ResumePrep.FormatEducation | modules/resume_prep.py:1475-1487 | one formatted entry per input, in order, with defaults for missing fields |
| ResumePrep.FormatProjects | modules/resume_prep.py:1497-1509 | one formatted entry per input, in order, with defaults for missing fields |
| ResumePrep.BulletsSkipBlankLines | modules/resume_prep.py:1531-1533 | blank achievement lines yield no bullet: the bullets are those of the non-blank lines |
| ResumePrep.AppendBullets | modules/resume_prep.py:1531-1533 | the loop appends one stripped bullet per non-blank line |
| ResumePrep.AppendExperienceEntry | modules/resume_prep.py:1526-1533 | one experience entry appends its header and its bullets |
| ResumePrep.AppendExperience | modules/resume_prep.py:1526-1533 | the loop appends every experience entry in order |
| ResumePrep.AppendEducationEntry | modules/resume_prep.py:1536-1541 | one education entry appends its line, with the GPA only when given, and its bullets |
| ResumePrep.AppendEducation | modules/resume_prep.py:1535-1541 | the loop appends the heading and every education entry in order |
| ResumePrep.AppendProjectEntry | modules/resume_prep.py:1553-1565 | one project appends its name, description, technologies, the links that are given and its bullets |
| ResumePrep.AppendProjects | modules/resume_prep.py:1553-1565 | the loop appends every project in order |
| ResumePrep.AppendSkillLine | modules/resume_prep.py:1544-1549 | a skill line is appended only for a non-empty list |
| ResumePrep.AppendSkills | modules/resume_prep.py:1543-1549 | the heading and the three skill lines are appended in the source's order |
| ResumePrep.AppendProjectsSection | modules/resume_prep.py:1551-1565 | the projects section is appended only when there are projects |
| ResumePrep.CreateFormattedResume | modules/resume_prep.py:1511-1567 | the resume is the stripped text built section by section |
| ResumePrep.FormattedResumeNotEmpty | modules/resume_prep.py:1515-1567 | the resume is never empty and neither starts nor ends with white space |
| ResumePrep.FormattedResumeProjects | modules/resume_prep.py:1551-1565 | without projects the text ends with the skills section; with projects it holds the PROJECTS heading |
| ResumePrep.CurrentPositionEndsPresent | modules/resume_prep.py:1527-1530 | a current position's date range ends with "Present" |
| ResumePrep.NoSkillLines | modules/resume_prep.py:1543-1549 | the skills section is only its heading exactly when all three lists are empty |
| JobMarket.SkillMatchSpec | modules/job_market_analysis.py:214-220 | no demand skills give 0; otherwise the match is positive exactly when some skill is in demand; for a skill list without repeats it lies in [0, 100] and is 100 when every demand skill is held |
| JobMarket.OpportunityScore | modules/job_market_analysis.py:188-212 | the opportunity score is capped at 100 |
| JobMarket.OpportunityScoreSpec | modules/job_market_analysis.py:188-212 | with a skill list without repeats, a non-negative growth rate and a market draw in [70, 90], the score lies in [7, 99], so the cap never bites |
| JobMarket.OpportunityScoreMonotone | modules/job_market_analysis.py:203-212 | a higher growth rate or a higher market draw never lowers the score |
| JobMarket.Opportunities | modules/job_market_analysis.py:147-158 | one opportunity is made per industry of the table |
| JobMarket.CollectOpportunities | modules/job_market_analysis.py:147-158 | the loop builds the table of the reference definition |
| JobMarket.TopIndustriesSpec | modules/job_market_analysis.py:161-165 | the top industries are the three best (or all, when fewer), from the table, in descending score order; an industry left out scores no more than each of the three |
| JobMarket.TrendsOfRelevance | modules/job_market_analysis.py:222-250 | each of the first three trends is high exactly when its condition holds, and sustainability is always medium |
| JobMarket.EmergingTrendsOrdered | modules/job_market_analysis.py:252-253 | the four trends are a permutation of the listed ones with all high trends first, each group in the listed order |
| JobMarket.SortedByRelevance | modules/job_market_analysis.py:253 | sorting by relevance keeps the length, puts high before medium and keeps each group's order |
| JobMarket.EmergingTrendsMembers | modules/job_market_analysis.py:252-253 | the sort keeps exactly the listed trends |
| JobMarket.EmergingTrendsRelevance | modules/job_market_analysis.py:222-253 | AI integration is high exactly with machine learning or Python, remote work exactly with communication, data-driven decisions exactly with data analysis; sustainability is always listed as medium |
| JobMarket.AnalyzeSkillDemand | modules/job_market_analysis.py:294-311 | the loop computes the reference split and score |
| JobMarket.SkillDemandSpec | modules/job_market_analysis.py:294-311 | the skills are split into high and medium demand without loss (as multisets), a skill is high exactly when it is one of the three listed, and the demand score is the skill count plus the high count, between one and two points per skill |
| JobMarket.RolesOf | modules/job_market_analysis.py:418-433 | an industry yields no role without a relevant skill, and one entry per emerging role otherwise |
| JobMarket.AppendRoles | modules/job_market_analysis.py:419-433 | the inner loop appends exactly that industry's roles |
| JobMarket.IdentifyEmergingRoles | modules/job_market_analysis.py:414-436 | the loop gives the roles of the reference definition |
| JobMarket.ListedGrows | modules/job_market_analysis.py:418-433 | a role listed for the first industries, or for the next one, is listed for the longer table |
| JobMarket.ListedSplits | modules/job_market_analysis.py:418-433 | a role listed for a table is listed for its first industries or for its last |
| JobMarket.AllRolesMembers | modules/job_market_analysis.py:418-433 | a role is collected exactly when some industry lists it |
| JobMarket.EmergingRolesSpec | modules/job_market_analysis.py:414-436 | at most ten roles by descending skill match, each collected with at least one relevant skill; a collected role left out means ten roles each matching at least as well |
| JobMarket.EmergingRolesOrdered | modules/job_market_analysis.py:435-436 | at most ten roles, by descending skill match |
| JobMarket.EmergingRolesCutoff | modules/job_market_analysis.py:435-436 | a collected role left out means ten roles each matching at least as well |
| JobMarket.ListedRole | modules/job_market_analysis.py:421-425 | every role kept has at least one relevant skill and was collected |
| JobMarket.BestIndex | modules/job_market_analysis.py:269 | the chosen industry has the highest score, and no earlier one ties it (the first maximum, as `max` picks) |
| JobMarket.MarketInsightsSpec | modules/job_market_analysis.py:255-278 | an empty table raises; otherwise the first insight follows the strength bands (above 70, (40, 70], at most 40), the second names an industry of highest score, and the third appears exactly when some industry grows faster than 10%, listing exactly those |
| JobMarket.HighGrowthIndustriesSpec | modules/job_market_analysis.py:273-274 | an industry is listed exactly when it grows faster than 10% |
| JobMarket.AnalyzeMarket | modules/job_market_analysis.py:139-186 | an empty table raises; otherwise the analysis holds the top industries, trends, insights, skill demand and emerging roles of the reference definitions |
| SkillMapping.NamesOf | modules/skill_mapping.py:156 | the names are those of the skills, position by position (see also line 62) |
| SkillMapping.PartitionSkills | modules/skill_mapping.py:68-77 | the loop puts exactly the held skills in the matched list and the others in the gaps, both in catalogue order |
| SkillMapping.PartitionSpec | modules/skill_mapping.py:68-77 | matched and gaps split the catalogue without loss (as multisets); a skill is matched exactly when the student names it and a gap exactly when not |
| SkillMapping.ExclusiveFilters | modules/skill_mapping.py:86-147 | the technical and soft-skill counts never add up to more than the skills counted |
| SkillMapping.StrengthLinesSpec | modules/skill_mapping.py:149-162 | each strength line appears exactly when its condition holds, and none appears exactly when none holds |
| SkillMapping.AppendStrengthLines | modules/skill_mapping.py:149-162 | the appends build the reference lines |
| SkillMapping.IdentifyStrengths | modules/skill_mapping.py:140-164 | the method gives the strengths of the reference definition |
| SkillMapping.StrengthsSpec | modules/skill_mapping.py:140-164 | the strengths are never empty; "no skills assessed" exactly without matched skills; otherwise each line appears exactly when its condition holds, and "building skill foundation" exactly when none does |
| SkillMapping.ImprovementLinesSpec | modules/skill_mapping.py:175-190 | each improvement line appears exactly when its condition holds, and none appears exactly when no gap is critical or technical |
| SkillMapping.ImprovementsWithGaps | modules/skill_mapping.py:175-192 | with gaps the list is never empty and never "all core skills covered"; "general skill development" appears exactly when no gap is critical or technical |
| SkillMapping.IdentifyImprovementAreas | modules/skill_mapping.py:166-192 | the method gives the improvement areas of the reference definition |
| SkillMapping.FilterNonEmpty | modules/skill_mapping.py:176-188 | a filtered gap list is non-empty exactly when some gap passes the filter |
| SkillMapping.ImprovementsSpec | modules/skill_mapping.py:166-192 | never empty; "all core skills covered" exactly without gaps; otherwise soft skills exactly with a critical gap, technical expansion exactly with a technical gap, programming exactly with a technical gap and a technology or programming interest (so only together with technical expansion), and the general advice exactly when no other line applies |
| SkillMapping.AnalyzeSkills | modules/skill_mapping.py:51-103 | an empty catalogue raises (the strength divides by its size); otherwise the analysis is the reference one |
| SkillMapping.StrengthScoreSpec | modules/skill_mapping.py:80 | the strength lies in [0, 100], is 100 exactly without gaps and 0 exactly without matches |
| SkillMapping.AnalysisSpec | modules/skill_mapping.py:51-103 | the gaps are the first ten gaps in catalogue order, the strength is the matched share, the technical and soft counts fit in the matched skills, the total is the catalogue size, and strengths and improvement areas are never empty |
| Gemini.BeforeFirstPrefix | modules/gemini_ai_engine.py:81 | `split(sep)[0]` is a prefix of the text that holds no separator and stops at the end or at the first separator |
| Gemini.OccursInExtension | modules/gemini_ai_engine.py:80-83 | an occurrence in a prefix is an occurrence in the whole text |
| Gemini.OccursShift | modules/gemini_ai_engine.py:80-83 | an occurrence in a suffix is an occurrence in the whole text, shifted |
| Gemini.FenceOfSeparator | modules/gemini_ai_engine.py:80-81 | where the json fence occurs, a plain fence occurs |
| Gemini.CutIsFenceSegment | modules/gemini_ai_engine.py:81-83 | cutting the text after a marker at the next fence gives a segment of the text that holds no fence and ends at a fence or at the end |
| Gemini.MarkedSegment | modules/gemini_ai_engine.py:81-83 | the part after the first marker, cut at the next fence and stripped, is a stripped fence segment that starts right after the marker and holds no fence |
| Gemini.ExtractJsonSpec | modules/gemini_ai_engine.py:79-83 | with a json fence, the extract is the stripped segment right after its first occurrence up to the next fence; else with a plain fence, the stripped segment after the first fence; without fences, the text itself; an extract cut from a fenced text holds no fence |
| Gemini.JsonEndpoint | modules/gemini_ai_engine.py:136-176 | an endpoint returns the model's JSON exactly when the call succeeded and the extracted text parses, and then returns the parsed value; otherwise the error reply (shared by the LinkedIn, answer-evaluation, trajectory, skill-gap, job-description, learning-path and industry endpoints) |
| Gemini.CalculateAtsScore | modules/gemini_ai_engine.py:783-797 | the checks add up the reference points, capped at 100 |
| Gemini.AtsScoreSpec | modules/gemini_ai_engine.py:783-797 | the score lies in [0, 100], the cap never bites, it is 100 exactly when all four checks pass and 0 exactly when all fail |
| Gemini.GetOptimizationTips | modules/gemini_ai_engine.py:799-812 | the checks append the reference tips |
| Gemini.TipsSpec | modules/gemini_ai_engine.py:799-812 | at most three distinct tips: the summary tip exactly below 50 characters, the keyword tip exactly below 15 keywords, the projects tip exactly without projects; a 50-character summary earns no points and draws no tip, and 11 to 14 keywords earn the 30 points and still draw the tip |
| Gemini.FallbackResumeSpec | modules/gemini_ai_engine.py:814-821 | the fallback carries the user's skills, experience and education (empty defaults when absent) and a summary naming the target role, or "professional" |
| Gemini.GenerateAtsOptimizedResume | modules/gemini_ai_engine.py:42-98 | the reply fails exactly when the call raises or the extracted text does not parse, and then carries the fallback resume; otherwise the parsed resume with its score and tips |
| Gemini.FillDefaults | modules/gemini_ai_engine.py:219-227 | a missing or empty question, and a missing criteria or key-points entry, get their defaults; everything present is kept |
| Gemini.FallbackInterviewComplete | modules/gemini_ai_engine.py:229-256 | the fallback question has a question, criteria and key points |
| Gemini.DefaultedComplete | modules/gemini_ai_engine.py:219-227 | after the defaults, the question, criteria and key points are all present |
| Gemini.ConductMockInterview | modules/gemini_ai_engine.py:178-256 | a failed call or an unparsable reply gives the fixed fallback question; otherwise the parsed question with defaults filled in; either way question, criteria and key points are present |
| Gemini.TruncateMonotone | modules/gemini_ai_engine.py:512-530 | `int()` of a larger non-negative figure is never smaller |
| Gemini.SalaryFallbackSpec | modules/gemini_ai_engine.py:505-530 | an offer `int()` cannot read counts as 700000, a decimal text is read as its number, and for a non-negative offer the figures are ordered: 25th percentile, walk-away, median (the offer), counter offer, 75th, 90th percentile |
| Gemini.SalaryStrategy | modules/gemini_ai_engine.py:457-530 | the fallback is used exactly when the call raises or the reply does not parse, and its median is the offered salary |
| Common.Shuffle | modules/ai_interview_prep.py:215 | shuffling, for any draws of the random generator, permutes the questions: same length, same multiset |
| Common.ShuffleArray | modules/ai_interview_prep.py:215 | the in-place shuffle leaves the array holding exactly the shuffled sequence the draws determine |
| Common.Dedup | modules/resume_prep.py:388 | removing repeats (as `set()` does) keeps exactly the elements of the list, each once, and never lengthens it |
| Common.SortDesc | modules/career_recommender.py:240 | the descending sort by a key is a permutation of its input, ordered by the key |
| Common.SortDescStable | modules/learning_planner.py:417 | the sort is stable, as Python's is: the elements of any one key keep their original order |
| Common.TakeTop | modules/career_recommender.py:240 | an element of a sorted list left out of its first n means n were kept, each with a key at least as large |
| Common.MaxOf | modules/career_recommender.py:498 | `max` of a non-empty list bounds every element and is one of them |
| Common.Percent | modules/career_recommender.py:274 | a share of an empty whole is 0, a part of the whole lies in [0, 100], and the whole is 100 |
| Common.MeanBounds | modules/career_recommender.py:497 | the average of values within bounds lies within the same bounds |
| Text.SplitOn | modules/resume_prep.py:1471 | splitting at a character gives at least one piece, and no piece holds the character |
| Text.SplitJoinRoundTrip | modules/resume_prep.py:1471 | joining the pieces of a split with the same character gives the text back |
| Text.ParseIntRoundTrip | modules/gemini_ai_engine.py:506 | `int()` reads back the decimal text of any integer |
| Text.Strip | modules/resume_prep.py:1567 | stripping gives a slice of the text that neither starts nor ends with white space |
| Text.DurationMinutes | modules/ai_interview_prep.py:621-628 | for a non-negative span, the minutes are the whole minutes it contains, truncated |

## Left out

- Language-model calls (Gemini `generate_content`, the Perplexity HTTP request) and their prompt text: foreign network services. Each one is a parameter: the reply, or the fact that the call raised. Only the merge, defaulting and fallback rules around the call are modelled.
- The generic endpoints of `modules/gemini_ai_engine.py` that only parse a model's JSON reply are one rule, `Gemini.JsonEndpoint`: extract the JSON, else fall back. Their per-endpoint prompt text and fallback prose are not modelled.
- `json.loads` on model text: the parse is a parameter. The mock interview's evaluation distinguishes a JSON object from any other JSON value, whose `.get` raises after the answer is filed. Everywhere else, a reply that parses to a JSON value other than an object is treated like a reply that does not parse; Python would go on with a list or a string, where `in` works, and raise on a number.
- SQLite persistence is I/O:
  - `_init_database`, `_save_interview_results`, `_save_assessment_results`, `_save_question_answer`, the database update in `_complete_interview_session`, `get_interview_history`, `get_assessment_history`, `get_session_details`, `_load_career_data` and `_load_skills`;
  - finished assessments are an append-only store held by the engine;
  - earlier history is a parameter.
- PDF rendering with reportlab (`generate_pdf_resume`) and filesystem access: I/O through a foreign library.
- The TF-IDF skill recommender `_recommend_skills` of `modules/skill_mapping.py`: it depends on sklearn, numpy and floating-point cosine similarity.
- `random.shuffle`: given draws, modelled as the same Fisher-Yates swaps. `random.uniform`: a parameter lying in the source's range. Neither is random here.
- Clock readings (`datetime.now`, `time.time`) are integer seconds given as parameters. ISO timestamp strings are integers, and duration strings are not parsed.
- `round(x, 1)` and `round(x, 2)`: scores are exact `real`s, and rounding is not modelled. This covers the two-decimal skill match of `JobMarket.SkillMatch`.
- Floating-point behaviour in general: arithmetic is exact over `real`.
- Static catalogues (question texts, resume templates, course, certification, project and career tables, market data, role question lists) are parameters or constants over ids. Their prose is not transcribed. The standard assessment bank's ids, types, mappings and weights are transcribed in `SkillBank`.
- Python `set()` iteration order is hash order. Every `list(set(...))` is modelled as first-occurrence deduplication, so the model fixes one order among those Python may produce.
- `str.title()` and other Unicode case mappings: case mapping is ASCII only.
- `int()` on text accepts surrounding white space, an optional sign and decimal digits. Underscores between digits and non-ASCII digits, which Python also accepts, are not modelled.
- White space is ASCII only: space, tab, line feed, carriage return, vertical tab and form feed. `Text.Strip`, `Text.WordCount`, `Text.FirstWord` and `Text.ParseInt` do not treat the further characters Python's `strip`, `split` and `int` count as white space (`\x1c`-`\x1f`, `\x85`, `\xa0`, `\u2000` and others) as white space.
- Salary strings: formatting with ₹ and Indian digit grouping, `_estimate_salary`, `_generate_salary_insights` and the string-based `max` over formatted salaries. Only the numeric fallback of the salary negotiation reply is modelled.
- The study-schedule and progress-tracking tables of the learning plan: fixed prose.
- `ResumePrep.FormatSkills`: has no contract of its own. It only fills three lists with defaults, and the formatted resume's lemmas state its effect.
- Exceptions raised by non-string fields inside `_calculate_ats_score` of `modules/resume_prep.py`: fields are typed in the model.
- The Flask routes in `app.py` and `api/index.py`: web wiring only.
- Concurrency: the code has none, and the shared session dictionaries are not modelled under parallel access.
- InterviewPrep.Union: deduplicates remark values, not remark texts. A coach remark whose text equals a stock remark's text (for example "Good technical knowledge demonstrated") is kept beside the stock remark, where the source's `set()` over strings merges the two. Stock remarks are kept as constructors because proofs over their string texts were too costly.
- InterviewPrep.CoachMergeComplete: its "exactly the union" is over remark values, with the same gap as `InterviewPrep.Union`.
- InterviewPrep.ConsolidateRemarks: counts remark values, not remark texts. A coach remark whose text equals a stock remark's is counted apart from it, where the source's count dictionary counts them together.
- SkillAssessment.BumpGet: states the update with the corrected increment of the first Findings row. A negative answer earns nothing, where the source adds `mapping[-1]` for -1 and raises IndexError below `-len(mapping)`.
- SkillAssessment.UpdatedScoresGet: uses the corrected increment, as for `SkillAssessment.BumpGet`.
- SkillAssessment.UpdateSkillScores: adds the corrected increment, as for `SkillAssessment.BumpGet`.
- SkillAssessment.AdvanceEffect: its scores are those of the corrected increment, as for `SkillAssessment.BumpGet`.
- AssessmentEngine.SubmitOn: the assessment engine scores answers with the corrected increment, as for `SkillAssessment.BumpGet`. A negative answer earns nothing, and the submit never raises IndexError.
- AssessmentEngine.SubmitEffect: pins down the corrected increment's scores, as for `AssessmentEngine.SubmitOn`.
- AssessmentEngine.Assessment.SubmitAnswer: runs the corrected increment, as for `AssessmentEngine.SubmitOn`.
- MockInterview.StartedPaced: is about the corrected question generation of the second Findings row, which records `question_number` on the fallback path too. As written, a start whose generation fails leaves `question_number` at 0; `MockInterview.StartWithFailingGeneratorStalls` states that case.
- MockInterview.SubmitPaced: the counter part of the invariant holds for the corrected generation only, as for `MockInterview.StartedPaced`.
- MockInterview.AnsweredPaced: the counter it preserves is the corrected generation's, as for `MockInterview.StartedPaced`.
- MockInterview.SubmitOn: asks the next question with the corrected generation, as for `MockInterview.StartedPaced`. `MockInterview.SubmitAsWritten` is the submit as written.
- MockInterview.SubmitOnContinues: the session after the ask carries the counter the corrected generation records, as for `MockInterview.SubmitOn`.
- MockInterview.SubmitOnSpec: the bookkeeping it keeps is the corrected generation's, as for `MockInterview.SubmitOn`.
- MockInterview.Interviewer.GenerateQuestion: records the question number on the fallback path too, which the source does not (the second Findings row).
- MockInterview.Interviewer.StartInterviewSession: asks question 1 with the corrected generation, as for `MockInterview.Interviewer.GenerateQuestion`.
- MockInterview.Interviewer.FileAndAdvance: asks with the corrected generation, as for `MockInterview.SubmitOn`.
- MockInterview.Interviewer.SubmitAnswer: runs the corrected generation, as for `MockInterview.SubmitOn`.
- Career.SkillScoreBounds: the bound and the percentage are stated only for a user skill list without repeats. With a repeated skill the source's count `sum(1 for s in user_skills if s in required)` can exceed the number of required skills, and the score then exceeds 100.
- Career.ScoreCareerBounds: stated only for skill lists without repeats, for the same reason.
- Career.CareerScoresBounds: stated only for skill lists without repeats, for the same reason.
- JobMarket.SkillMatchSpec: the percentage bound is stated only for skill lists without repeats, for the same reason.
- JobMarket.OpportunityScoreSpec: stated for skill lists without repeats, a non-negative growth rate and a market factor in [70, 90], the range the source draws it from.
- Text.DurationMinutes: the floor property is stated for spans that do not run backwards only. For a negative span the result truncates toward zero, as `int()` does.

## Findings

| source | as written | input that shows it | evidently intended | confidence | as-written member | corrected member |
|---|---|---|---|---|---|---|
| modules/ai_skill_assessment.py:361-362 | an integer answer is used as an index when it is below `len(mapping)`, with no lower bound | an answer of `-1` to a rating question with levels `[0, 1, 2, 3, 4]` passes the guard, and Python's negative index adds the top level 4. An answer of `-6` passes too, and the index raises | an answer counts only when `0 <= index < len(mapping)`; a negative answer adds nothing | high (not executed) | SkillAssessment.NegativeAnswerAsWritten | SkillAssessment.IncrementCorrected |
| modules/advanced_mock_interview.py:199-210 | the fallback question path appends a question but never sets `question_number` | every question generation fails: `question_number` stays 0, so `question_number < 5` holds after every answer and the interview never completes | the fallback path also sets `question_number` to the requested number, so the fifth answer completes the interview | high (not executed) | MockInterview.StalledRunNeverFinishes | MockInterview.FifthAnswerFinishes |
