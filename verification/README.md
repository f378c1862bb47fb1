# Candidate interview evaluator: stage-gated scoring model

A Dafny model of the decision logic inside the `CandidateEvaluator` React
component (`CandidateInterviewEvaluator.jsx`). An operator saves a
candidate's contact details. They then score three interview stages
(psychometric, technical, final) against fixed five-criterion rubrics, and
finally view a weighted confidence score with a recommendation tier. The
stage weights are configurable and persisted.

The model is functional. The session is an immutable `Session.Session`
value. Each handler (candidate form, stage form, weights form, navigation)
is a pure function from the old session to the new one, and it keeps the
last alert the component would show in a `notice` field.

Modules, leaves first:

- `Common`: `Option`, alert severities and the `Notice` (message, severity).
- `Rubric`: the stage keys and the three ordered lists of criteria.
- `WeightConfig`: the weight triple, its default 20/40/40, start-up
  loading and validation of a submitted triple.
- `Stage`: the stage record and the per-criterion pass of the stage form
  handler (`Scan`), plus `Submit`. `StageFacts` holds the lemmas about
  saved and rejected submissions.
- `Scoring`: the confidence score and the recommendation tiers.
- `Session`: screens, the navigation guard, the three handlers, the
  session invariant `Valid`, and runs of operator actions. `SessionFacts`
  holds the lemmas about reachable sessions and post-submit navigation.

Behaviours of the component that the model reproduces as written:

- **Stale guard after a submit.** A handler's closing `navigateTo`
  consults the guard against the session as it was before the handler
  ran (`Session.NavigateFrom` takes the guard's session separately). So
  the first candidate save stays on the candidate screen, and the first
  save of the final stage stays put. In both cases the success alert is
  replaced by the "complete the previous stages" warning.
- **Shallow copy of the stage record.** The stage handler copies the
  record shallowly, so the score and comment maps are shared. Every
  acceptable criterion is written into the live maps even when the
  submission is then abandoned. `completed`, the average and the
  final-stage extras change only on a save.
- **Last alert wins.** The `return` inside `forEach` only ends one
  iteration. When several scores are rejected, the alert left is the one
  for the last rejected criterion.
- **Integer average.** The average is kept exactly as the integer total
  of the five scores (average = total / 5). The score is computed as
  `(4 * Σ total_i * w_i + 50) / 100`. It is proved equal to
  `Math.round` applied to the exact value of the component's formula.

Consequences of the component's code that are easy to overlook:

- A rejected stage submission still writes the accepted scores and
  comments. The copy at `CandidateInterviewEvaluator.jsx:119` is shallow,
  and the writes at lines 133-134 happen before the count check at line
  139 abandons the save (`Stage.SubmitWrites`).
- Having every criterion scored does not mean the stage is completed. Two
  rejected submissions can fill all five score slots while `completed`
  stays false and the average stays null, because only line 142 sets
  `completed` (`StageFacts.AllScoredWithoutCompletion`). The converse
  holds: a completed stage has every criterion scored.
- A rejected resubmission of a completed stage stores the new scores but
  keeps the old average, so the average no longer matches the stored
  scores (`StageFacts.FailedResubmitKeepsStaleAverage`).
- The confidence screen needs only the final stage (lines 82-83), while
  the score needs all three (line 183). The screen can therefore be open
  while the score is null (`SessionFacts.ConfidenceWithoutScore`).

## Model

| member | source | states |
|---|---|---|
| Rubric.Criteria | CandidateInterviewEvaluator.jsx:17-53 | every stage rubric is an ordered list of exactly five criteria |
| Rubric.RubricIdsDistinct | CandidateInterviewEvaluator.jsx:10-53 | the five criterion ids of each stage are pairwise distinct, so a stage has exactly five score slots |
| Rubric.Title | CandidateInterviewEvaluator.jsx:152 | the stage name in the saved alert is the stage key with its first letter, a lower-case letter, turned into the matching upper-case letter and the rest unchanged |
| WeightConfig.Load | CandidateInterviewEvaluator.jsx:56-68 | start-up adopts a stored triple only if it totals 100; the result always totals 100; anything else leaves the default 20/40/40 |
| WeightConfig.Validate | CandidateInterviewEvaluator.jsx:163-173 | a submitted triple is accepted iff all three fields parse and they total exactly 100, with no bound on each field |
| WeightConfig.SaveThenLoad | CandidateInterviewEvaluator.jsx:175-176 | a triple that passed validation and was stored is exactly what the next start-up loads |
| WeightConfig.LoadRejectsUnbalanced | CandidateInterviewEvaluator.jsx:61-63 | a stored triple whose total is not 100 is ignored at start-up |
| Stage.Initial | CandidateInterviewEvaluator.jsx:11-45 | a fresh stage record is well formed, not completed and has no scores |
| Stage.Average | CandidateInterviewEvaluator.jsx:141 | a stage has an average exactly when it has a total, and a completed well-formed stage has an average within the 1..5 rating scale |
| Stage.CompletedAverageInRange | CandidateInterviewEvaluator.jsx:141-142 | in a well-formed record, completed implies an average in [1,5] |
| Stage.InitialStages | CandidateInterviewEvaluator.jsx:10-53 | the session starts with three well-formed, uncompleted stage records |
| Stage.Scan | CandidateInterviewEvaluator.jsx:124-137 | the per-criterion pass adds exactly the accepted criteria's ids to the live score and comment maps |
| Stage.ScanEntries | CandidateInterviewEvaluator.jsx:133-134 | after the pass every accepted criterion's score and comment (empty if missing) are in the live maps |
| Stage.ScanKeeps | CandidateInterviewEvaluator.jsx:119-134 | entries of the live maps that no accepted criterion names are left as they were |
| Stage.ScanCount | CandidateInterviewEvaluator.jsx:136-139 | the pass's count reaches the number of criteria iff every score is present and in 1..5 |
| Stage.ScanTotal | CandidateInterviewEvaluator.jsx:135-136 | the pass's total is the sum of the accepted scores, between one and five times the count |
| Stage.ScanNotice | CandidateInterviewEvaluator.jsx:128-131 | the alert left after the pass names the last rejected criterion, and is untouched when none is rejected |
| Stage.ScanNoticeKept | CandidateInterviewEvaluator.jsx:128-131 | when every score is acceptable, the pass raises no alert and the earlier one stays |
| Stage.ScanNoticeLast | CandidateInterviewEvaluator.jsx:128-131 | each rejection overwrites the alert, so the last rejected criterion is the one named |
| Stage.Submit | CandidateInterviewEvaluator.jsx:116-152 | a stage is saved iff all five scores are acceptable; a save sets completed with an average in [1,5] and a success alert; a rejection keeps completed, average and extras and alerts on the last rejected criterion |
| Stage.SubmitWrites | CandidateInterviewEvaluator.jsx:119-134 | saved or not, every accepted criterion's score and comment are written and all other entries are kept (shallow copy) |
| Stage.SubmitSaved | CandidateInterviewEvaluator.jsx:141-149 | a save stores the sum of the five scores as the average's total, and the final stage copies its three extras with empty-string defaults |
| StageFacts.SubmitPreservesWellFormed | CandidateInterviewEvaluator.jsx:133-142 | every submission keeps a stage record well formed: average and completed set together, average in [1,5], only rubric ids scored with values in 1..5, every scored id commented |
| StageFacts.SavedAverageIsMean | CandidateInterviewEvaluator.jsx:133-141 | right after a save the stored average is the mean of the five stored scores |
| StageFacts.ResubmitOverwrites | CandidateInterviewEvaluator.jsx:133-151 | a saved record depends only on the submitted form, so resubmitting overwrites the whole record with no residue of earlier scores |
| StageFacts.FailedResubmitKeepsStaleAverage | CandidateInterviewEvaluator.jsx:119-139 | after a rejected resubmission of a completed stage, the new scores are stored but the old average stays, so the average is no longer the mean of the scores |
| StageFacts.AllScoredWithoutCompletion | CandidateInterviewEvaluator.jsx:128-139 | two rejected submissions can fill every score slot of a stage while it stays uncompleted with a null average |
| Scoring.FinalScore | CandidateInterviewEvaluator.jsx:182-199 | the score is null unless all three stages are completed, and otherwise equals Math.round of the exact weighted sum of (average/5)·100 |
| Scoring.ExactScoreClearOfHalf | CandidateInterviewEvaluator.jsx:188-198 | the unrounded score is a multiple of 0.04, so its fractional part stays at least 0.02 away from one half and rounding never meets a tie |
| Scoring.ScoreRange | CandidateInterviewEvaluator.jsx:188-198 | with well-formed completed stages and non-negative weights totalling 100, the score lies in 20..100 |
| Scoring.ScoreMonotone | CandidateInterviewEvaluator.jsx:188-198 | with non-negative weights, raising stage averages never lowers the score |
| Scoring.GetRecommendation | CandidateInterviewEvaluator.jsx:201-206 | the tier is the strongest whose threshold (85, 70, 55) the score reaches, otherwise Not Recommended |
| Scoring.RecommendationMonotone | CandidateInterviewEvaluator.jsx:201-206 | a higher score never gets a weaker tier |
| Scoring.Recommendation | CandidateInterviewEvaluator.jsx:208-209 | no tier is shown when the score is null or 0; otherwise the threshold tier |
| Scoring.WorkedExamples | CandidateInterviewEvaluator.jsx:182-206 | averages 4/3/5 under 20/40/40 score 80 (Recommend); all fives score 100 (Highly Recommend); all twos score 40 (Not Recommended) |
| Session.GuardTable | CandidateInterviewEvaluator.jsx:77-84 | candidate and weights are always reachable; each stage screen, in any order, iff a candidate exists; confidence iff the final stage is completed; any other screen never |
| Session.GuardReadsOnlyCandidateAndFinal | CandidateInterviewEvaluator.jsx:77-84 | the guard depends only on whether a candidate exists and whether the final stage is completed, not on the psychometric and technical records |
| Session.NavigateFrom | CandidateInterviewEvaluator.jsx:86-92 | a handler's navigation checks the guard against the session the handler closed over; when blocked, only the alert changes |
| Session.NavigateTo | CandidateInterviewEvaluator.jsx:86-92 | the screen becomes the target exactly when the guard allows it; otherwise a warning is raised and nothing else changes |
| Session.SubmitCandidate | CandidateInterviewEvaluator.jsx:95-113 | a blank field only raises a danger alert; otherwise the candidate is replaced wholesale, and the screen advances to psychometric only if a candidate already existed before the save |
| Session.SubmitStage | CandidateInterviewEvaluator.jsx:116-157 | only the submitted stage's record changes; on a save the screen advances to the next one iff the pre-submit guard allows it, else a warning; on a rejection the screen stays |
| Session.SubmitWeights | CandidateInterviewEvaluator.jsx:160-178 | a total other than 100 only raises a danger alert; otherwise the triple replaces the weights, is persisted, and the screen returns to candidate |
| Session.Init | CandidateInterviewEvaluator.jsx:6-68 | the session starts on the candidate screen with no candidate, no alert, no completed stage and the loaded weights |
| SessionFacts.InitValid | CandidateInterviewEvaluator.jsx:6-68 | the start-up session satisfies the invariant whatever the persisted slot holds |
| SessionFacts.StepKeepsAccess | CandidateInterviewEvaluator.jsx:77-84 | no action makes a reachable screen unreachable |
| SessionFacts.StepPreservesValid | CandidateInterviewEvaluator.jsx:77-178 | every action keeps the invariant: the current screen is admitted by the guard, the weights total 100, every stage record is well formed |
| SessionFacts.RunPreservesValid | CandidateInterviewEvaluator.jsx:77-178 | every sequence of actions from a valid session keeps it valid |
| SessionFacts.ReachableValid | CandidateInterviewEvaluator.jsx:6-178 | every session reachable from start-up is valid: confidence is shown only after the final stage is completed, and the weights always total 100 |
| SessionFacts.FirstCandidateSaveStays | CandidateInterviewEvaluator.jsx:110-112 | the first successful candidate save stays on its screen with the blocked warning; a second save advances to psychometric |
| SessionFacts.FinalSaveNavigation | CandidateInterviewEvaluator.jsx:151-156 | the first final-stage save completes the stage but stays with the warning; resaving a completed final stage reaches confidence; a later navigation to confidence succeeds |
| SessionFacts.EarlierStageSaveAdvances | CandidateInterviewEvaluator.jsx:155-156 | with a candidate, saving psychometric goes to technical and saving technical goes to final |
| SessionFacts.ConfidenceWithoutScore | CandidateInterviewEvaluator.jsx:82-83 | a run the interface allows (save candidate, open final, save final, open confidence) reaches the confidence screen with only the final stage completed, so the score is still null |
| SessionFacts.WeightsSurviveRestart | CandidateInterviewEvaluator.jsx:175-176 | accepted weights are persisted, and a restart loads them back |
| SessionFacts.RejectedWeightsUnchanged | CandidateInterviewEvaluator.jsx:169-173 | a rejected weights submission changes neither the weights nor the persisted slot |

## Left out

- Rendering: all markup, styles and animation, the sidebar badges, the static comparison cards and derived display values (contribution points, bar heights, feedback summary). These are presentational.
- Tier colours: only the tier and its text are modelled.
- Alert timer: the 3.5-second auto-dismiss is timer behaviour. The model keeps the last alert until a later action replaces it.
- Persistence: the browser storage and JSON encoding are I/O. The persisted slot is an `Option` of a weight triple. A missing key, unparsable text and a value without integer fields all count as `None`.
- Form parsing: `FormData` extraction and `parseInt` (truncation, NaN) are not modelled. A stage form gives a map of parsed integer scores, with absent meaning missing or NaN. A weights field is `Option<int>`. Candidate fields are strings, with empty meaning missing.
- Browser validation: the `required` attributes and the range limits of the inputs are enforced by the browser, not the handlers. The handlers' own checks are modelled.
- Floating point: `toFixed(2)`, `parseFloat` and double-precision `Math.round` are not modelled. Exact arithmetic is used instead. A total over five has at most one decimal, so rounding the average to two places changes nothing. The unrounded score stays at least 0.02 away from a half (`Scoring.ExactScoreClearOfHalf`). Double-precision error is many orders of magnitude smaller, so it cannot change the rounded score; that error is not modelled.
- Scoring.ScoreRange: the bound assumes non-negative weights. The handlers accept any integers that total 100, and with negative weights the score can leave 20..100.
- Session.Run: accepts every sequence of actions, including a form submitted from a screen that does not render it (each form appears only on its own screen, lines 401, 520 and 1203) and a sidebar entry the guard has disabled (line 322). The invariant lemmas therefore cover a superset of the real runs. `Session.Feasible` picks out the runs the interface allows, and the witness lemma `SessionFacts.ConfidenceWithoutScore` proves its run is one of them.
