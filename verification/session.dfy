/** The evaluation session: the current screen, the candidate, the
    weights, the three stage records and the last alert, with the
    navigation guard and the three form handlers as transitions.

    Every handler runs against the session as it was when the handler
    started: React state setters do not update the values the handler
    closed over, so the guard it consults before its closing navigation
    sees the pre-submit candidate and stage records. */
module Session {
  import opened Common
  import R = Rubric
  import St = Stage
  import W = WeightConfig

  /** The screens of the workflow, plus any other name a navigation might
      be asked for. */
  datatype Screen = Candidate | Psychometric | Technical | Final | Confidence | Weights | Unknown(name: string)

  /** The contact details of the candidate under evaluation. */
  datatype Profile = Profile(firstName: string, lastName: string, email: string, phone: string)

  /** The whole state of one evaluation. `stored` is the persisted weights
      slot: written on every accepted weights submission, read at start-up. */
  datatype Session = Session(
    screen: Screen,
    candidate: Option<Profile>,
    weights: W.Weights,
    stages: St.Stages,
    notice: Option<Notice>,
    stored: Option<W.Weights>)

  /** The screen of a stage's form. */
  function StageScreen(k: R.StageKey): Screen {
    match k
    case Psychometric => Psychometric
    case Technical => Technical
    case Final => Final
  }

  /** Where a saved stage leads: psychometric to technical, technical to
      final, final to the confidence score. */
  function NextScreen(k: R.StageKey): Screen {
    match k
    case Psychometric => Technical
    case Technical => Final
    case Final => Confidence
  }

  /** The navigation guard. The candidate and weights screens are always
      open; the three stage screens open once a candidate is saved, in any
      order; the confidence screen opens once the final stage is completed,
      whatever the other two stages hold; any other name is closed. */
  predicate CanAccess(s: Session, target: Screen) {
    match target
    case Candidate => true
    case Weights => true
    case Psychometric => s.candidate.Some?
    case Technical => s.candidate.Some?
    case Final => s.candidate.Some?
    case Confidence => s.stages.final.completed
    case Unknown(_) => false
  }

  /** The guard, screen by screen: candidate and weights always; every
      stage screen, in any order, exactly when a candidate is saved; the
      confidence screen exactly when the final stage is completed; nothing
      else. */
  lemma GuardTable(s: Session)
    ensures CanAccess(s, Candidate) && CanAccess(s, Weights)
    ensures forall k: R.StageKey :: CanAccess(s, StageScreen(k)) <==> s.candidate.Some?
    ensures CanAccess(s, Confidence) <==> s.stages.final.completed
    ensures forall name: string :: !CanAccess(s, Unknown(name))
  {
  }

  /** The guard reads nothing but whether a candidate is saved and whether
      the final stage is completed. */
  lemma GuardReadsOnlyCandidateAndFinal(s: Session, s': Session, target: Screen)
    requires s.candidate.Some? == s'.candidate.Some?
    requires s.stages.final.completed == s'.stages.final.completed
    ensures CanAccess(s, target) == CanAccess(s', target)
  {
  }

  const BlockedMessage: string := "Please complete the previous stages first"

  /** The warning raised by a blocked navigation. */
  const Blocked: Notice := Notice(BlockedMessage, Warning)

  /** Navigation from inside a handler: the guard is evaluated on `guard`,
      the session the handler closed over, and the result applied to `s`,
      the session after the handler's own updates. */
  function NavigateFrom(guard: Session, s: Session, target: Screen): (r: Session)
    ensures CanAccess(guard, target) ==> r == s.(screen := target)
    ensures !CanAccess(guard, target) ==> r == s.(notice := Some(Blocked))
  {
    if CanAccess(guard, target) then s.(screen := target) else s.(notice := Some(Blocked))
  }

  /** A navigation request (sidebar, buttons): the screen changes exactly
      when the guard allows it; otherwise a warning is raised and nothing
      else changes. */
  function NavigateTo(s: Session, target: Screen): (r: Session)
    ensures r.screen == (if CanAccess(s, target) then target else s.screen)
    ensures r.notice == (if CanAccess(s, target) then s.notice else Some(Blocked))
    ensures r.candidate == s.candidate && r.weights == s.weights
    ensures r.stages == s.stages && r.stored == s.stored
  {
    NavigateFrom(s, s, target)
  }

  /** The candidate form: each field is the submitted text, empty when the
      field is missing. */
  datatype CandidateForm = CandidateForm(firstName: string, lastName: string, email: string, phone: string)

  /** Some required field of the candidate form is empty. */
  predicate HasBlank(f: CandidateForm) {
    f.firstName == "" || f.lastName == "" || f.email == "" || f.phone == ""
  }

  const FillFieldsMessage: string := "Please fill all required fields"
  const CandidateSavedMessage: string := "Candidate information saved successfully"

  /** The candidate form handler. A blank field raises a danger alert and
      changes nothing else. Otherwise the candidate is replaced by the four
      fields, a success alert is raised, and the handler navigates to the
      psychometric stage, a navigation guarded by the candidate as it was
      before this submission. */
  function SubmitCandidate(s: Session, f: CandidateForm): (r: Session)
    ensures HasBlank(f) ==> r == s.(notice := Some(Notice(FillFieldsMessage, Danger)))
    ensures !HasBlank(f) ==>
              && r.candidate == Some(Profile(f.firstName, f.lastName, f.email, f.phone))
              && r.stages == s.stages && r.weights == s.weights && r.stored == s.stored
    ensures !HasBlank(f) && s.candidate.Some? ==>
              r.screen == Psychometric && r.notice == Some(Notice(CandidateSavedMessage, Success))
    ensures !HasBlank(f) && s.candidate.None? ==>
              r.screen == s.screen && r.notice == Some(Blocked)
  {
    if HasBlank(f) then
      s.(notice := Some(Notice(FillFieldsMessage, Danger)))
    else
      var saved := s.(candidate := Some(Profile(f.firstName, f.lastName, f.email, f.phone)),
                      notice := Some(Notice(CandidateSavedMessage, Success)));
      NavigateFrom(s, saved, Psychometric)
  }

  /** The stage form handler for stage `k`. The stage's record becomes the
      outcome of the per-criterion pass (accepted criteria are written even
      when the submission is rejected); the other two records are untouched.
      On a save the handler navigates to the next screen, a navigation
      guarded by the session as it was before this submission. */
  function SubmitStage(s: Session, k: R.StageKey, form: St.ScoreForm): (r: Session)
    ensures r.candidate == s.candidate && r.weights == s.weights && r.stored == s.stored
    ensures forall j: R.StageKey | j != k :: r.stages.Get(j) == s.stages.Get(j)
    ensures r.stages.Get(k) == St.Submit(k, s.stages.Get(k), form, s.notice).record
    ensures !St.AllAcceptable(R.Criteria(k), form) ==>
              r.screen == s.screen && r.notice == St.Submit(k, s.stages.Get(k), form, s.notice).notice
    ensures St.AllAcceptable(R.Criteria(k), form) && CanAccess(s, NextScreen(k)) ==>
              r.screen == NextScreen(k) && r.notice == Some(Notice(St.SavedMessage(k), Success))
    ensures St.AllAcceptable(R.Criteria(k), form) && !CanAccess(s, NextScreen(k)) ==>
              r.screen == s.screen && r.notice == Some(Blocked)
  {
    var o := St.Submit(k, s.stages.Get(k), form, s.notice);
    var updated := s.(stages := s.stages.Set(k, o.record), notice := o.notice);
    if o.saved then NavigateFrom(s, updated, NextScreen(k)) else updated
  }

  const WeightsTotalMessage: string := "Weights must total 100%"
  const WeightsSavedMessage: string := "Weights updated successfully"

  /** The weights form handler. A triple whose total is not 100 (or that
      does not parse) raises a danger alert and changes nothing else.
      Otherwise the triple replaces the weights, is written to the
      persisted slot, and the handler returns to the candidate screen. */
  function SubmitWeights(s: Session, f: W.WeightsForm): (r: Session)
    ensures W.Validate(f).None? ==> r == s.(notice := Some(Notice(WeightsTotalMessage, Danger)))
    ensures W.Validate(f).Some? ==>
              && r.weights == W.Validate(f).value && r.stored == Some(r.weights)
              && W.Balanced(r.weights)
              && r.screen == Candidate && r.notice == Some(Notice(WeightsSavedMessage, Success))
              && r.candidate == s.candidate && r.stages == s.stages
  {
    match W.Validate(f)
    case None => s.(notice := Some(Notice(WeightsTotalMessage, Danger)))
    case Some(w) =>
      NavigateFrom(s, s.(weights := w, stored := Some(w), notice := Some(Notice(WeightsSavedMessage, Success))),
                   Candidate)
  }

  /** The session at start-up, after the weights have been loaded from the
      persisted slot. */
  function Init(stored: Option<W.Weights>): (s: Session)
    ensures s.screen == Candidate && s.candidate.None? && s.notice.None?
    ensures s.weights == W.Load(stored)
    ensures forall k: R.StageKey :: !s.stages.Get(k).completed
  {
    Session(Candidate, None, W.Load(stored), St.InitialStages(), None, stored)
  }

  /** What the session guarantees at every step: the current screen is a
      real one the guard admits, the weights total 100, and every stage
      record is well formed. */
  predicate Valid(s: Session) {
    && !s.screen.Unknown?
    && CanAccess(s, s.screen)
    && W.Balanced(s.weights)
    && St.AllWellFormed(s.stages)
  }

  /** The operator's actions. */
  datatype Action =
    | Navigate(target: Screen)
    | SaveCandidate(candidateForm: CandidateForm)
    | SaveStage(key: R.StageKey, scoreForm: St.ScoreForm)
    | SaveWeights(weightsForm: W.WeightsForm)

  /** The session after one action. */
  function Step(s: Session, a: Action): Session {
    match a
    case Navigate(t) => NavigateTo(s, t)
    case SaveCandidate(f) => SubmitCandidate(s, f)
    case SaveStage(k, f) => SubmitStage(s, k, f)
    case SaveWeights(f) => SubmitWeights(s, f)
  }

  /** The session after a sequence of actions, first to last. Any
      sequence is accepted, including ones the interface could not
      produce, so facts proved for every run hold a fortiori for the
      feasible ones. */
  function Run(s: Session, actions: seq<Action>): Session
    decreases |actions|
  {
    if actions == [] then s else Run(Step(s, actions[0]), actions[1..])
  }

  /** Whether the interface offers action `a` in session `s`: each form is
      rendered only on its own screen, and a sidebar entry the guard
      refuses is disabled. */
  predicate Enabled(s: Session, a: Action) {
    match a
    case Navigate(t) => CanAccess(s, t)
    case SaveCandidate(_) => s.screen == Candidate
    case SaveStage(k, _) => s.screen == StageScreen(k)
    case SaveWeights(_) => s.screen == Weights
  }

  /** Every action of the sequence is offered when it is taken. */
  predicate Feasible(s: Session, actions: seq<Action>)
    decreases |actions|
  {
    actions == [] || (Enabled(s, actions[0]) && Feasible(Step(s, actions[0]), actions[1..]))
  }
}

/** Properties of sessions: the invariant, reachability of screens and the
    effect of the stale guard on post-submit navigation. */
module SessionFacts {
  import opened Common
  import R = Rubric
  import St = Stage
  import SF = StageFacts
  import W = WeightConfig
  import Sc = Scoring
  import opened Session

  /** The start-up session is valid, whatever the persisted slot holds. */
  lemma InitValid(stored: Option<W.Weights>)
    ensures Valid(Init(stored))
  {
  }

  /** No action takes a screen away: a candidate, once saved, stays saved,
      and a completed final stage stays completed. */
  lemma StepKeepsAccess(s: Session, a: Action, target: Screen)
    requires CanAccess(s, target)
    ensures CanAccess(Step(s, a), target)
  {
    var r := Step(s, a);
    match a {
      case Navigate(t) =>
        assert r.candidate == s.candidate && r.stages == s.stages;
      case SaveCandidate(f) =>
        assert s.candidate.Some? ==> r.candidate.Some?;
        assert r.stages == s.stages;
      case SaveStage(k, f) =>
        assert r.candidate == s.candidate;
        if k == R.Final {
          var o := St.Submit(R.Final, s.stages.final, f, s.notice);
          assert s.stages.Get(R.Final) == s.stages.final;
          assert r.stages.final == o.record;
        } else {
          assert r.stages.final == s.stages.Get(R.Final);
        }
      case SaveWeights(f) =>
        assert r.candidate == s.candidate && r.stages == s.stages;
    }
  }

  /** Every action keeps the session valid. */
  lemma StepPreservesValid(s: Session, a: Action)
    requires Valid(s)
    ensures Valid(Step(s, a))
  {
    var r := Step(s, a);
    match a {
      case Navigate(t) =>
      case SaveCandidate(f) =>
      case SaveStage(k, f) =>
        SF.SubmitPreservesWellFormed(k, s.stages.Get(k), f, s.notice);
        assert forall j: R.StageKey :: St.WellFormed(j, r.stages.Get(j)) by {
          forall j: R.StageKey ensures St.WellFormed(j, r.stages.Get(j)) {
            if j != k {
              assert St.WellFormed(j, s.stages.Get(j));
            }
          }
        }
        if r.screen == s.screen {
          StepKeepsAccess(s, a, s.screen);
        } else {
          StepKeepsAccess(s, a, NextScreen(k));
        }
      case SaveWeights(f) =>
    }
  }

  /** Every run from a valid session stays valid. */
  lemma {:induction false} RunPreservesValid(s: Session, actions: seq<Action>)
    requires Valid(s)
    ensures Valid(Run(s, actions))
    decreases |actions|
  {
    if actions != [] {
      StepPreservesValid(s, actions[0]);
      RunPreservesValid(Step(s, actions[0]), actions[1..]);
    }
  }

  /** Every session reachable from start-up is valid; in particular the
      confidence screen is only ever shown once the final stage is
      completed, and the weights in force always total 100. */
  lemma ReachableValid(stored: Option<W.Weights>, actions: seq<Action>)
    ensures Valid(Run(Init(stored), actions))
    ensures Run(Init(stored), actions).screen == Confidence ==> Run(Init(stored), actions).stages.final.completed
    ensures W.Balanced(Run(Init(stored), actions).weights)
  {
    InitValid(stored);
    RunPreservesValid(Init(stored), actions);
  }

  /** The first candidate save does not leave the candidate screen: its
      guard still sees no candidate, so the success alert is replaced by the
      "complete the previous stages" warning. A second save advances. */
  lemma FirstCandidateSaveStays(s: Session, f: CandidateForm)
    requires s.candidate.None? && !HasBlank(f)
    ensures SubmitCandidate(s, f).screen == s.screen
    ensures SubmitCandidate(s, f).candidate.Some?
    ensures SubmitCandidate(s, f).notice == Some(Blocked)
    ensures SubmitCandidate(SubmitCandidate(s, f), f).screen == Psychometric
  {
  }

  /** The first save of the final stage does not reach the confidence
      screen (its guard sees the final stage not yet completed), though the
      stage is now completed and a later navigation succeeds; resaving a
      completed final stage does advance. */
  lemma FinalSaveNavigation(s: Session, form: St.ScoreForm)
    requires St.AllAcceptable(R.Criteria(R.Final), form)
    ensures var r := SubmitStage(s, R.Final, form);
            && r.stages.final.completed
            && (s.stages.final.completed ==> r.screen == Confidence)
            && (!s.stages.final.completed ==> r.screen == s.screen && r.notice == Some(Blocked))
            && NavigateTo(r, Confidence).screen == Confidence
  {
    var r := SubmitStage(s, R.Final, form);
    assert r.stages.Get(R.Final) == r.stages.final;
  }

  /** Saving the psychometric or technical stage with a candidate present
      advances to the next stage. */
  lemma EarlierStageSaveAdvances(s: Session, k: R.StageKey, form: St.ScoreForm)
    requires k != R.Final && s.candidate.Some?
    requires St.AllAcceptable(R.Criteria(k), form)
    ensures SubmitStage(s, k, form).screen == NextScreen(k)
    ensures SubmitStage(s, k, form).notice == Some(Notice(St.SavedMessage(k), Success))
  {
  }

  /** The confidence screen can be open while the score is still null:
      it needs only the final stage completed, while the score needs all
      three. The run is one the interface allows: save the candidate (the
      screen stays), open the final stage, save it (the screen stays
      again), then open the confidence screen. */
  lemma ConfidenceWithoutScore(stored: Option<W.Weights>, fc: CandidateForm, form: St.ScoreForm)
    requires !HasBlank(fc)
    requires St.AllAcceptable(R.Criteria(R.Final), form)
    ensures var acts := [SaveCandidate(fc), Navigate(Final), SaveStage(R.Final, form), Navigate(Confidence)];
            && Feasible(Init(stored), acts)
            && Run(Init(stored), acts).screen == Confidence
            && Sc.FinalScore(Run(Init(stored), acts).stages, Run(Init(stored), acts).weights).None?
  {
    var acts := [SaveCandidate(fc), Navigate(Final), SaveStage(R.Final, form), Navigate(Confidence)];
    var s0 := Init(stored);
    var s1 := Step(s0, acts[0]);
    var s2 := Step(s1, acts[1]);
    var s3 := Step(s2, acts[2]);
    var s4 := Step(s3, acts[3]);
    assert s1.screen == Candidate && s1.candidate.Some?;
    assert s2.screen == Final && s2.stages == s0.stages;
    FinalSaveNavigation(s2, form);
    assert !s3.stages.psychometric.completed by {
      assert s0.stages.Get(R.Psychometric) == s0.stages.psychometric;
      assert s3.stages.Get(R.Psychometric) == s3.stages.psychometric;
    }
    assert s4.screen == Confidence && s4.stages == s3.stages;
    assert acts[1..][1..][1..][1..] == [];
    assert Feasible(s4, acts[1..][1..][1..][1..]);
    assert Feasible(s3, acts[1..][1..][1..]);
    assert Feasible(s2, acts[1..][1..]);
    assert Feasible(s1, acts[1..]);
    assert Run(s4, acts[1..][1..][1..][1..]) == s4;
    assert Run(s3, acts[1..][1..][1..]) == s4;
    assert Run(s2, acts[1..][1..]) == s4;
    assert Run(s1, acts[1..]) == s4;
  }

  /** Saving weights and restarting brings the same weights back. */
  lemma WeightsSurviveRestart(s: Session, f: W.WeightsForm)
    requires W.Validate(f).Some?
    ensures Init(SubmitWeights(s, f).stored).weights == SubmitWeights(s, f).weights
    ensures SubmitWeights(s, f).weights == W.Validate(f).value
  {
  }

  /** A rejected weights submission leaves the weights and the persisted
      slot as they were. */
  lemma RejectedWeightsUnchanged(s: Session, f: W.WeightsForm)
    requires W.Validate(f).None?
    ensures SubmitWeights(s, f).weights == s.weights
    ensures SubmitWeights(s, f).stored == s.stored
  {
  }
}
