/** One interview stage's evaluation record and the stage-submit logic:
    the per-criterion validation pass over the rubric, the average, the
    completion flag and the final stage's extra fields. */
module Stage {
  import opened Common
  import opened Rubric

  /** The free-text fields that only the final stage carries. */
  datatype Extras = Extras(salaryRange: string, noticePeriod: string, finalComments: string)

  /** The evaluation state of one stage. The average is kept exactly as
      `total`, the sum of the five scores (so average = total / 5);
      `total` is `None` while the component's `average` is null.
      `extras` is present for the final stage only. */
  datatype StageRecord = StageRecord(
    completed: bool,
    scores: map<string, int>,
    comments: map<string, string>,
    total: Option<int>,
    extras: Option<Extras>)

  /** The record of a stage before anything has been submitted. */
  function Initial(k: StageKey): (r: StageRecord)
    ensures WellFormed(k, r) && !r.completed && r.scores == map[]
  {
    StageRecord(false, map[], map[], None,
                if k == Final then Some(Extras("", "", "")) else None)
  }

  /** The average of stage `k` as a rational number, `None` while it is
      null. A completed well-formed stage always has an average on the
      1..5 rating scale. */
  function Average(k: StageKey, r: StageRecord): (avg: Option<real>)
    ensures avg.Some? <==> r.total.Some?
    ensures avg.Some? ==> avg.value * 5.0 == r.total.value as real
    ensures WellFormed(k, r) && r.completed ==> avg.Some? && 1.0 <= avg.value <= 5.0
  {
    if r.total.Some? then Some(r.total.value as real / 5.0) else None
  }

  /** What the component guarantees of a stage record: the extras belong to
      the final stage only; `average` and `completed` are set together and
      the average lies in [1,5]; only rubric ids are ever scored, every
      stored score is in 1..5, every scored id has a comment; and a
      completed stage has a score for every criterion. */
  predicate WellFormed(k: StageKey, r: StageRecord) {
    && (r.extras.Some? <==> k == Final)
    && (r.completed <==> r.total.Some?)
    && (r.total.Some? ==> 5 <= r.total.value <= 25)
    && r.scores.Keys <= Ids(k)
    && r.comments.Keys == r.scores.Keys
    && (forall id | id in r.scores :: 1 <= r.scores[id] <= 5)
    && (r.completed ==> Ids(k) <= r.scores.Keys)
  }

  /** In a well-formed record, completion bounds the average to [1,5]. */
  lemma CompletedAverageInRange(k: StageKey, r: StageRecord)
    requires WellFormed(k, r) && r.completed
    ensures Average(k, r).Some? && 1.0 <= Average(k, r).value <= 5.0
  {
  }

  /** The three stage records of a session. */
  datatype Stages = Stages(psychometric: StageRecord, technical: StageRecord, final: StageRecord) {

    /** The record of stage `k`. */
    function Get(k: StageKey): StageRecord {
      match k
      case Psychometric => psychometric
      case Technical => technical
      case Final => final
    }

    /** These records with the one of stage `k` replaced by `r`. */
    function Set(k: StageKey, r: StageRecord): (st: Stages)
      ensures st.Get(k) == r
      ensures forall j | j != k :: st.Get(j) == Get(j)
    {
      match k
      case Psychometric => this.(psychometric := r)
      case Technical => this.(technical := r)
      case Final => this.(final := r)
    }
  }

  /** Every record of `st` is well formed for its own stage. */
  predicate AllWellFormed(st: Stages) {
    forall k: StageKey :: WellFormed(k, st.Get(k))
  }

  /** The records at session start. */
  function InitialStages(): (st: Stages)
    ensures AllWellFormed(st)
    ensures forall k: StageKey :: !st.Get(k).completed
  {
    Stages(Initial(Psychometric), Initial(Technical), Initial(Final))
  }

  /** A submitted stage form as parsed. `scores` maps a criterion id to the
      integer its `score-{id}` field parses to, and omits ids whose field is
      missing or not a number; `comments` omits ids whose comment field is
      missing. The final-stage fields are `None` when missing. */
  datatype ScoreForm = ScoreForm(
    scores: map<string, int>,
    comments: map<string, string>,
    salaryRange: Option<string>,
    noticePeriod: Option<string>,
    finalComments: Option<string>)

  /** A criterion's score passes the handler's check: present, not zero and
      within 1..5. */
  predicate Acceptable(form: ScoreForm, c: Criterion) {
    c.id in form.scores && 1 <= form.scores[c.id] <= 5
  }

  /** Every criterion of `cs` has an acceptable score. */
  predicate AllAcceptable(cs: seq<Criterion>, form: ScoreForm) {
    forall i | 0 <= i < |cs| :: Acceptable(form, cs[i])
  }

  /** The ids of the criteria of `cs` whose score is acceptable. */
  function AcceptedIds(cs: seq<Criterion>, form: ScoreForm): set<string> {
    set i | 0 <= i < |cs| && Acceptable(form, cs[i]) :: cs[i].id
  }

  /** `cs[i]` is the last criterion of `cs` whose score is rejected. */
  predicate IsLastRejected(cs: seq<Criterion>, form: ScoreForm, i: int) {
    && 0 <= i < |cs|
    && !Acceptable(form, cs[i])
    && forall j | i < j < |cs| :: Acceptable(form, cs[j])
  }

  /** The sum of the acceptable scores of `cs`. */
  function AcceptedTotal(cs: seq<Criterion>, form: ScoreForm): int
    decreases |cs|
  {
    if cs == [] then 0
    else
      var c := cs[|cs| - 1];
      AcceptedTotal(cs[..|cs| - 1], form) + (if Acceptable(form, c) then form.scores[c.id] else 0)
  }

  /** The comment stored for criterion `id`: the submitted one, or the empty
      string when the field is missing. */
  function CommentFor(form: ScoreForm, id: string): string {
    if id in form.comments then form.comments[id] else ""
  }

  /** The alert raised for a criterion whose score is rejected. */
  function MissingScoreMessage(c: Criterion): string {
    "Please provide a score (1-5) for " + c.caption
  }

  /** The alert raised when a stage is saved. */
  function SavedMessage(k: StageKey): string {
    Title(k) + " stage saved successfully"
  }

  /** The state threaded through the per-criterion pass: the live score and
      comment maps (shared with the stage record, so they are written even
      when the submission is later abandoned), the running total and count
      of accepted scores, and the last alert raised. */
  datatype Tally = Tally(
    scores: map<string, int>,
    comments: map<string, string>,
    total: int,
    count: nat,
    notice: Option<Notice>)

  /** One iteration of the pass: a rejected score raises an alert and skips
      the criterion (the `return` only ends this iteration); an accepted
      one is written into the maps and counted. */
  function Visit(t: Tally, c: Criterion, form: ScoreForm): Tally {
    if !Acceptable(form, c) then
      t.(notice := Some(Notice(MissingScoreMessage(c), Danger)))
    else
      t.(scores := t.scores[c.id := form.scores[c.id]],
         comments := t.comments[c.id := CommentFor(form, c.id)],
         total := t.total + form.scores[c.id],
         count := t.count + 1)
  }

  /** `AcceptedIds` of a sequence extended by one criterion. */
  lemma AcceptedIdsSnoc(cs: seq<Criterion>, form: ScoreForm)
    requires cs != []
    ensures AcceptedIds(cs, form) ==
            AcceptedIds(cs[..|cs| - 1], form) + (if Acceptable(form, cs[|cs| - 1]) then {cs[|cs| - 1].id} else {})
  {
    var prefix, c := cs[..|cs| - 1], cs[|cs| - 1];
    forall id | id in AcceptedIds(cs, form)
      ensures id in AcceptedIds(prefix, form) + (if Acceptable(form, c) then {c.id} else {})
    {
      var i :| 0 <= i < |cs| && Acceptable(form, cs[i]) && cs[i].id == id;
      if i < |prefix| {
        assert prefix[i] == cs[i];
      }
    }
    forall id | id in AcceptedIds(prefix, form) ensures id in AcceptedIds(cs, form) {
      var i :| 0 <= i < |prefix| && Acceptable(form, prefix[i]) && prefix[i].id == id;
      assert cs[i] == prefix[i];
    }
  }

  /** The pass over the criteria `cs`, in order, from `start`. The live
      maps gain exactly the accepted ids. */
  function Scan(cs: seq<Criterion>, form: ScoreForm, start: Tally): (t: Tally)
    ensures t.scores.Keys == start.scores.Keys + AcceptedIds(cs, form)
    ensures t.comments.Keys == start.comments.Keys + AcceptedIds(cs, form)
    decreases |cs|
  {
    if cs == [] then start
    else
      AcceptedIdsSnoc(cs, form);
      Visit(Scan(cs[..|cs| - 1], form, start), cs[|cs| - 1], form)
  }

  /** Every accepted criterion's score and comment end up in the live maps
      (a later criterion with the same id would write the same values). */
  lemma {:induction false} ScanEntries(cs: seq<Criterion>, form: ScoreForm, start: Tally)
    ensures var t := Scan(cs, form, start);
            forall i | 0 <= i < |cs| && Acceptable(form, cs[i]) ::
              && cs[i].id in t.scores && cs[i].id in t.comments
              && t.scores[cs[i].id] == form.scores[cs[i].id]
              && t.comments[cs[i].id] == CommentFor(form, cs[i].id)
    decreases |cs|
  {
    if cs != [] {
      var prefix, c := cs[..|cs| - 1], cs[|cs| - 1];
      var before := Scan(prefix, form, start);
      var t := Scan(cs, form, start);
      assert t == Visit(before, c, form);
      ScanEntries(prefix, form, start);
      forall i | 0 <= i < |cs| && Acceptable(form, cs[i])
        ensures && cs[i].id in t.scores && cs[i].id in t.comments
                && t.scores[cs[i].id] == form.scores[cs[i].id]
                && t.comments[cs[i].id] == CommentFor(form, cs[i].id)
      {
        if i < |prefix| {
          assert prefix[i] == cs[i];
        }
      }
    }
  }

  /** Entries of the live maps whose id no accepted criterion carries are
      left as they were. */
  lemma {:induction false} ScanKeeps(cs: seq<Criterion>, form: ScoreForm, start: Tally)
    ensures var t := Scan(cs, form, start);
            && (forall id | id in start.scores && id !in AcceptedIds(cs, form) :: t.scores[id] == start.scores[id])
            && (forall id | id in start.comments && id !in AcceptedIds(cs, form) :: t.comments[id] == start.comments[id])
    decreases |cs|
  {
    if cs != [] {
      var prefix, c := cs[..|cs| - 1], cs[|cs| - 1];
      assert Scan(cs, form, start) == Visit(Scan(prefix, form, start), c, form);
      AcceptedIdsSnoc(cs, form);
      ScanKeeps(prefix, form, start);
    }
  }

  /** The pass counts one per accepted score, so its count reaches `|cs|`
      exactly when every score is acceptable. */
  lemma {:induction false} ScanCount(cs: seq<Criterion>, form: ScoreForm, start: Tally)
    ensures start.count <= Scan(cs, form, start).count <= start.count + |cs|
    ensures Scan(cs, form, start).count == start.count + |cs| <==> AllAcceptable(cs, form)
    decreases |cs|
  {
    if cs != [] {
      var prefix, c := cs[..|cs| - 1], cs[|cs| - 1];
      ScanCountStep(cs, form, start);
      ScanCount(prefix, form, start);
      if AllAcceptable(cs, form) {
        assert AllAcceptable(prefix, form) by {
          forall i | 0 <= i < |prefix| ensures Acceptable(form, prefix[i]) {
            assert prefix[i] == cs[i];
          }
        }
        assert Acceptable(form, cs[|cs| - 1]);
      } else if Acceptable(form, c) {
        var i :| 0 <= i < |cs| && !Acceptable(form, cs[i]);
        assert i < |prefix| && prefix[i] == cs[i];
      }
    }
  }

  /** The last criterion adds one to the count exactly when it is accepted. */
  lemma ScanCountStep(cs: seq<Criterion>, form: ScoreForm, start: Tally)
    requires cs != []
    ensures Scan(cs, form, start).count
            == Scan(cs[..|cs| - 1], form, start).count + (if Acceptable(form, cs[|cs| - 1]) then 1 else 0)
  {
  }

  /** The pass's total is the sum of the accepted scores, each between 1
      and 5, so it lies between one and five times the count. */
  lemma {:induction false} ScanTotal(cs: seq<Criterion>, form: ScoreForm, start: Tally)
    ensures Scan(cs, form, start).total == start.total + AcceptedTotal(cs, form)
    ensures var t := Scan(cs, form, start);
            t.count - start.count <= t.total - start.total <= 5 * (t.count - start.count)
    decreases |cs|
  {
    if cs != [] {
      ScanTotal(cs[..|cs| - 1], form, start);
    }
  }

  /** Every rejected score raises an alert over the previous one, so the
      alert left behind names the last rejected criterion; with no rejected
      score the alert is untouched. */
  lemma {:induction false} ScanNotice(cs: seq<Criterion>, form: ScoreForm, start: Tally)
    ensures AllAcceptable(cs, form) ==> Scan(cs, form, start).notice == start.notice
    ensures forall i | IsLastRejected(cs, form, i) ::
              Scan(cs, form, start).notice == Some(Notice(MissingScoreMessage(cs[i]), Danger))
  {
    if AllAcceptable(cs, form) {
      ScanNoticeKept(cs, form, start);
    }
    forall i | IsLastRejected(cs, form, i)
      ensures Scan(cs, form, start).notice == Some(Notice(MissingScoreMessage(cs[i]), Danger))
    {
      ScanNoticeLast(cs, form, start, i);
    }
  }

  /** With no rejected score the pass leaves the alert alone. */
  lemma {:induction false} ScanNoticeKept(cs: seq<Criterion>, form: ScoreForm, start: Tally)
    requires AllAcceptable(cs, form)
    ensures Scan(cs, form, start).notice == start.notice
    decreases |cs|
  {
    if cs != [] {
      var prefix, c := cs[..|cs| - 1], cs[|cs| - 1];
      assert Acceptable(form, cs[|cs| - 1]);
      assert Scan(cs, form, start).notice == Scan(prefix, form, start).notice;
      assert AllAcceptable(prefix, form) by {
        forall j | 0 <= j < |prefix| ensures Acceptable(form, prefix[j]) {
          assert prefix[j] == cs[j];
        }
      }
      ScanNoticeKept(prefix, form, start);
    }
  }

  /** The alert left by the pass names the last rejected criterion. */
  lemma {:induction false} ScanNoticeLast(cs: seq<Criterion>, form: ScoreForm, start: Tally, i: int)
    requires IsLastRejected(cs, form, i)
    ensures Scan(cs, form, start).notice == Some(Notice(MissingScoreMessage(cs[i]), Danger))
    decreases |cs|
  {
    var prefix, c := cs[..|cs| - 1], cs[|cs| - 1];
    if i == |cs| - 1 {
      assert !Acceptable(form, c);
    } else {
      assert Acceptable(form, cs[|cs| - 1]);
      assert Scan(cs, form, start).notice == Scan(prefix, form, start).notice;
      assert IsLastRejected(prefix, form, i) by {
        forall j | i < j < |prefix| ensures Acceptable(form, prefix[j]) {
          assert prefix[j] == cs[j];
        }
        assert prefix[i] == cs[i];
      }
      ScanNoticeLast(prefix, form, start, i);
    }
  }

  /** What a stage submission produces: the new record, whether the stage
      was saved, and the last alert. */
  datatype Outcome = Outcome(record: StageRecord, saved: bool, notice: Option<Notice>)

  /** Submit the form of stage `k` against its current record `rec`, with
      `notice` the alert showing beforehand. The stage is saved exactly
      when all five scores are acceptable: then the average (in [1,5]) and
      the completion flag are set and a success alert is raised. Otherwise
      the completion flag, the average and the extras stay as they were and
      the alert names the last rejected criterion. */
  function Submit(k: StageKey, rec: StageRecord, form: ScoreForm, notice: Option<Notice>): (o: Outcome)
    ensures o.saved <==> AllAcceptable(Criteria(k), form)
    ensures o.saved ==>
              && o.record.completed
              && o.record.total.Some?
              && 5 <= o.record.total.value <= 25
              && o.notice == Some(Notice(SavedMessage(k), Success))
    ensures !o.saved ==>
              && o.record.completed == rec.completed
              && o.record.total == rec.total
              && o.record.extras == rec.extras
              && exists i :: IsLastRejected(Criteria(k), form, i)
                               && o.notice == Some(Notice(MissingScoreMessage(Criteria(k)[i]), Danger))
  {
    var cs := Criteria(k);
    var start := Tally(rec.scores, rec.comments, 0, 0, notice);
    var t := Scan(cs, form, start);
    ScanCount(cs, form, start);
    ScanTotal(cs, form, start);
    ScanNotice(cs, form, start);
    var live := rec.(scores := t.scores, comments := t.comments);
    if t.count != |cs| then
      LastRejectedExists(cs, form);
      Outcome(live, false, t.notice)
    else
      Outcome(live.(total := Some(t.total), completed := true, extras := SavedExtras(k, rec, form)), true,
              Some(Notice(SavedMessage(k), Success)))
  }

  /** The extras a saved stage carries: the final stage copies the three
      fields from the form, each defaulting to the empty string; the other
      stages keep theirs. */
  function SavedExtras(k: StageKey, rec: StageRecord, form: ScoreForm): Option<Extras> {
    if k == Final then
      Some(Extras(form.salaryRange.GetOr(""), form.noticePeriod.GetOr(""), form.finalComments.GetOr("")))
    else rec.extras
  }

  /** When some score is rejected there is a last rejected criterion. */
  lemma LastRejectedExists(cs: seq<Criterion>, form: ScoreForm)
    requires !AllAcceptable(cs, form)
    ensures exists i :: IsLastRejected(cs, form, i)
  {
    var i :| 0 <= i < |cs| && !Acceptable(form, cs[i]);
    while exists j | i < j < |cs| :: !Acceptable(form, cs[j])
      invariant 0 <= i < |cs| && !Acceptable(form, cs[i])
      decreases |cs| - i
    {
      var j :| i < j < |cs| && !Acceptable(form, cs[j]);
      i := j;
    }
    assert IsLastRejected(cs, form, i);
  }

  /** What a submission writes into the live maps, saved or not: every
      accepted criterion gets its score and its comment (empty when
      missing), and every other entry is kept. */
  lemma SubmitWrites(k: StageKey, rec: StageRecord, form: ScoreForm, notice: Option<Notice>)
    ensures var r := Submit(k, rec, form, notice).record;
            && r.scores.Keys == rec.scores.Keys + AcceptedIds(Criteria(k), form)
            && r.comments.Keys == rec.comments.Keys + AcceptedIds(Criteria(k), form)
            && (forall i | 0 <= i < 5 && Acceptable(form, Criteria(k)[i]) ::
                  && r.scores[Criteria(k)[i].id] == form.scores[Criteria(k)[i].id]
                  && r.comments[Criteria(k)[i].id] == CommentFor(form, Criteria(k)[i].id))
            && (forall id | id in rec.scores && id !in AcceptedIds(Criteria(k), form) ::
                  r.scores[id] == rec.scores[id])
            && (forall id | id in rec.comments && id !in AcceptedIds(Criteria(k), form) ::
                  r.comments[id] == rec.comments[id])
  {
    var start := Tally(rec.scores, rec.comments, 0, 0, notice);
    ScanEntries(Criteria(k), form, start);
    ScanKeeps(Criteria(k), form, start);
  }

  /** A saved stage's average is the sum of its five accepted scores over
      five, and the final stage copies its extra fields. */
  lemma SubmitSaved(k: StageKey, rec: StageRecord, form: ScoreForm, notice: Option<Notice>)
    requires AllAcceptable(Criteria(k), form)
    ensures Submit(k, rec, form, notice).record.total == Some(AcceptedTotal(Criteria(k), form))
    ensures Submit(k, rec, form, notice).record.extras == SavedExtras(k, rec, form)
  {
    var start := Tally(rec.scores, rec.comments, 0, 0, notice);
    SavedTotalIsScanned(k, rec, form, notice);
    ScanTotalFromZero(Criteria(k), form, start);
  }

  /** A save stores the total the pass accumulated. */
  lemma SavedTotalIsScanned(k: StageKey, rec: StageRecord, form: ScoreForm, notice: Option<Notice>)
    requires AllAcceptable(Criteria(k), form)
    ensures Submit(k, rec, form, notice).record.total
            == Some(Scan(Criteria(k), form, Tally(rec.scores, rec.comments, 0, 0, notice)).total)
  {
    ScanCount(Criteria(k), form, Tally(rec.scores, rec.comments, 0, 0, notice));
  }

  /** A pass started from a zero total accumulates the accepted total. */
  lemma ScanTotalFromZero(cs: seq<Criterion>, form: ScoreForm, start: Tally)
    requires start.total == 0
    ensures Scan(cs, form, start).total == AcceptedTotal(cs, form)
  {
    ScanTotal(cs, form, start);
  }

}

module StageFacts {
  import opened Common
  import opened Rubric
  import opened Stage

  /** The sum of the stored scores of `cs`. */
  function SumScores(cs: seq<Criterion>, scores: map<string, int>): int
    requires forall i | 0 <= i < |cs| :: cs[i].id in scores
    decreases |cs|
  {
    if cs == [] then 0 else SumScores(cs[..|cs| - 1], scores) + scores[cs[|cs| - 1].id]
  }

  /** When every score is acceptable and the map holds the submitted scores,
      the accepted total is the sum of the stored scores. */
  lemma {:induction false} AcceptedTotalIsStoredSum(cs: seq<Criterion>, form: ScoreForm, scores: map<string, int>)
    requires AllAcceptable(cs, form)
    requires forall i | 0 <= i < |cs| :: cs[i].id in scores && scores[cs[i].id] == form.scores[cs[i].id]
    ensures AcceptedTotal(cs, form) == SumScores(cs, scores)
    decreases |cs|
  {
    if cs != [] {
      var prefix := cs[..|cs| - 1];
      assert forall i | 0 <= i < |prefix| :: prefix[i] == cs[i];
      AcceptedTotalIsStoredSum(prefix, form, scores);
    }
  }

  /** The accepted ids of a stage are among its rubric ids, and are all of
      them when every score is acceptable. */
  lemma AcceptedIdsOfStage(k: StageKey, form: ScoreForm)
    ensures AcceptedIds(Criteria(k), form) <= Ids(k)
    ensures AllAcceptable(Criteria(k), form) ==> AcceptedIds(Criteria(k), form) == Ids(k)
  {
  }

  /** A submission keeps a well-formed record well formed, saved or not. */
  lemma SubmitPreservesWellFormed(k: StageKey, rec: StageRecord, form: ScoreForm, notice: Option<Notice>)
    requires WellFormed(k, rec)
    ensures WellFormed(k, Submit(k, rec, form, notice).record)
  {
    var o := Submit(k, rec, form, notice);
    var cs := Criteria(k);
    AcceptedIdsOfStage(k, form);
    SubmitWrites(k, rec, form, notice);
    SubmitSaved'(k, rec, form, notice);
    forall id | id in o.record.scores ensures 1 <= o.record.scores[id] <= 5 {
      if id in AcceptedIds(cs, form) {
        var i :| 0 <= i < |cs| && Acceptable(form, cs[i]) && cs[i].id == id;
      }
    }
  }

  /** A saved final stage carries extras; the other stages keep theirs. */
  lemma SubmitSaved'(k: StageKey, rec: StageRecord, form: ScoreForm, notice: Option<Notice>)
    ensures Submit(k, rec, form, notice).saved ==> Submit(k, rec, form, notice).record.extras == SavedExtras(k, rec, form)
  {
    if Submit(k, rec, form, notice).saved {
      SubmitSaved(k, rec, form, notice);
    }
  }

  /** After a save the stage average is the mean of its five stored scores. */
  lemma SavedAverageIsMean(k: StageKey, rec: StageRecord, form: ScoreForm, notice: Option<Notice>)
    requires Submit(k, rec, form, notice).saved
    ensures var r := Submit(k, rec, form, notice).record;
            && (forall i | 0 <= i < 5 :: Criteria(k)[i].id in r.scores)
            && r.total == Some(SumScores(Criteria(k), r.scores))
  {
    var cs := Criteria(k);
    var start := Tally(rec.scores, rec.comments, 0, 0, notice);
    SavedRecordIs(k, rec, form, notice);
    ScanEntries(cs, form, start);
    AcceptedTotalIsStoredSum(cs, form, Scan(cs, form, start).scores);
  }

  /** A saved record holds the submitted score and comment of every rubric
      criterion. */
  lemma SavedEntries(k: StageKey, rec: StageRecord, form: ScoreForm, notice: Option<Notice>)
    requires Submit(k, rec, form, notice).saved
    ensures var r := Submit(k, rec, form, notice).record;
            forall id | id in Ids(k) ::
              && id in form.scores && id in r.scores && id in r.comments
              && r.scores[id] == form.scores[id] && r.comments[id] == CommentFor(form, id)
  {
    var cs := Criteria(k);
    SubmitWrites(k, rec, form, notice);
    forall id | id in Ids(k)
      ensures id in form.scores && id in AcceptedIds(cs, form)
      ensures exists i | 0 <= i < |cs| :: cs[i].id == id && Acceptable(form, cs[i])
    {
      var i :| 0 <= i < |cs| && cs[i].id == id;
      assert Acceptable(form, cs[i]);
    }
  }

  /** With every score acceptable, the accepted ids are all the ids. */
  lemma AllAcceptedIds(cs: seq<Criterion>, form: ScoreForm)
    requires AllAcceptable(cs, form)
    ensures AcceptedIds(cs, form) == IdsOf(cs)
  {
  }

  /** With every score acceptable, a pass from maps keyed within the rubric
      ends with maps keyed by exactly the rubric ids. */
  lemma ScanFullKeys(cs: seq<Criterion>, form: ScoreForm, start: Tally)
    requires AllAcceptable(cs, form)
    requires start.scores.Keys <= IdsOf(cs) && start.comments.Keys <= IdsOf(cs)
    ensures Scan(cs, form, start).scores.Keys == IdsOf(cs)
    ensures Scan(cs, form, start).comments.Keys == IdsOf(cs)
  {
    AllAcceptedIds(cs, form);
  }

  /** With every score acceptable, a pass stores the submitted score and
      comment of every rubric id. */
  lemma ScanFullEntries(cs: seq<Criterion>, form: ScoreForm, start: Tally)
    requires AllAcceptable(cs, form)
    ensures var t := Scan(cs, form, start);
            forall id | id in IdsOf(cs) ::
              && id in form.scores && id in t.scores && id in t.comments
              && t.scores[id] == form.scores[id] && t.comments[id] == CommentFor(form, id)
  {
    var t := Scan(cs, form, start);
    ScanEntries(cs, form, start);
    forall id | id in IdsOf(cs)
      ensures && id in form.scores && id in t.scores && id in t.comments
              && t.scores[id] == form.scores[id] && t.comments[id] == CommentFor(form, id)
    {
      var i :| 0 <= i < |cs| && cs[i].id == id;
      assert Acceptable(form, cs[i]);
    }
  }

  /** When every score is acceptable, a pass that starts from maps keyed
      within the rubric ends with maps that depend on the form alone. */
  lemma ScanFullOverwrites(cs: seq<Criterion>, form: ScoreForm, s1: Tally, s2: Tally)
    requires AllAcceptable(cs, form)
    requires s1.scores.Keys <= IdsOf(cs) && s1.comments.Keys <= IdsOf(cs)
    requires s2.scores.Keys <= IdsOf(cs) && s2.comments.Keys <= IdsOf(cs)
    ensures Scan(cs, form, s1).scores == Scan(cs, form, s2).scores
    ensures Scan(cs, form, s1).comments == Scan(cs, form, s2).comments
  {
    ScanFullKeys(cs, form, s1);
    ScanFullKeys(cs, form, s2);
    ScanFullEntries(cs, form, s1);
    ScanFullEntries(cs, form, s2);
  }

  /** The record a save produces, spelled out field by field. */
  lemma SavedRecordIs(k: StageKey, rec: StageRecord, form: ScoreForm, notice: Option<Notice>)
    requires AllAcceptable(Criteria(k), form)
    ensures var t := Scan(Criteria(k), form, Tally(rec.scores, rec.comments, 0, 0, notice));
            Submit(k, rec, form, notice).record
              == StageRecord(true, t.scores, t.comments, Some(AcceptedTotal(Criteria(k), form)), SavedExtras(k, rec, form))
  {
    SubmitSaved(k, rec, form, notice);
  }

  /** Resubmitting a stage replaces its record wholesale: a saved record
      depends only on the form, whatever was there before. */
  lemma ResubmitOverwrites(k: StageKey, r1: StageRecord, r2: StageRecord, form: ScoreForm,
                           n1: Option<Notice>, n2: Option<Notice>)
    requires WellFormed(k, r1) && WellFormed(k, r2)
    requires Submit(k, r1, form, n1).saved
    ensures Submit(k, r1, form, n1).record == Submit(k, r2, form, n2).record
  {
    var cs := Criteria(k);
    var s1, s2 := Tally(r1.scores, r1.comments, 0, 0, n1), Tally(r2.scores, r2.comments, 0, 0, n2);
    ScanFullOverwrites(cs, form, s1, s2);
    SavedRecordIs(k, r1, form, n1);
    SavedRecordIs(k, r2, form, n2);
    assert SavedExtras(k, r1, form) == SavedExtras(k, r2, form);
  }

  /** Scores of at most 5 with one below 5 sum to less than five each. */
  lemma {:induction false} SumScoresBelowMax(cs: seq<Criterion>, scores: map<string, int>, i: int)
    requires forall j | 0 <= j < |cs| :: cs[j].id in scores && scores[cs[j].id] <= 5
    requires 0 <= i < |cs| && scores[cs[i].id] < 5
    ensures SumScores(cs, scores) < 5 * |cs|
    decreases |cs|
  {
    var prefix := cs[..|cs| - 1];
    assert forall j | 0 <= j < |prefix| :: prefix[j] == cs[j];
    if i < |prefix| {
      SumScoresBelowMax(prefix, scores, i);
    } else {
      SumScoresAtMost(prefix, scores);
    }
  }

  /** Scores of at most 5 sum to at most five each. */
  lemma {:induction false} SumScoresAtMost(cs: seq<Criterion>, scores: map<string, int>)
    requires forall j | 0 <= j < |cs| :: cs[j].id in scores && scores[cs[j].id] <= 5
    ensures SumScores(cs, scores) <= 5 * |cs|
    decreases |cs|
  {
    if cs != [] {
      var prefix := cs[..|cs| - 1];
      assert forall j | 0 <= j < |prefix| :: prefix[j] == cs[j];
      SumScoresAtMost(prefix, scores);
    }
  }

  /** A failed resubmission still writes the accepted scores into the
      record (its maps are shared with the working copy) while the average
      keeps its old value. So after a stage saved with all fives, a
      rejected resubmission that scores some criterion below 5 leaves an
      average of 5 over stored scores whose mean is below 5: the
      submission is not all-or-nothing, and "the average is the mean of the
      scores" does not survive it. */
  lemma FailedResubmitKeepsStaleAverage(k: StageKey, rec: StageRecord, form: ScoreForm,
                                        notice: Option<Notice>, i: int)
    requires WellFormed(k, rec) && rec.total == Some(25)
    requires !AllAcceptable(Criteria(k), form)
    requires 0 <= i < 5 && Acceptable(form, Criteria(k)[i]) && form.scores[Criteria(k)[i].id] < 5
    ensures var o := Submit(k, rec, form, notice);
            && !o.saved
            && o.record.completed && o.record.total == Some(25)
            && o.record.scores[Criteria(k)[i].id] == form.scores[Criteria(k)[i].id]
            && (forall j | 0 <= j < 5 :: Criteria(k)[j].id in o.record.scores)
            && SumScores(Criteria(k), o.record.scores) < 25
  {
    var cs := Criteria(k);
    var r := Submit(k, rec, form, notice).record;
    SubmitWrites(k, rec, form, notice);
    SubmitPreservesWellFormed(k, rec, form, notice);
    assert forall j | 0 <= j < 5 :: cs[j].id in Ids(k);
    SumScoresBelowMax(cs, r.scores, i);
  }

  /** Two failed submissions can together fill every score slot of a stage
      without ever completing it: the first rejects only the last criterion,
      the second only the first. */
  lemma AllScoredWithoutCompletion()
    ensures var k := Technical;
            var cs := Criteria(k);
            var first := ScoreForm(map[cs[0].id := 3, cs[1].id := 3, cs[2].id := 3, cs[3].id := 3],
                                   map[], None, None, None);
            var second := ScoreForm(map[cs[4].id := 4], map[], None, None, None);
            var o1 := Submit(k, Initial(k), first, None);
            var o2 := Submit(k, o1.record, second, o1.notice);
            && !o1.saved && !o2.saved
            && Ids(k) <= o2.record.scores.Keys
            && !o2.record.completed && o2.record.total.None?
  {
    var k := Technical;
    var cs := Criteria(k);
    var first := ScoreForm(map[cs[0].id := 3, cs[1].id := 3, cs[2].id := 3, cs[3].id := 3],
                           map[], None, None, None);
    var second := ScoreForm(map[cs[4].id := 4], map[], None, None, None);
    assert !Acceptable(first, cs[4]);
    assert !Acceptable(second, cs[0]);
    assert forall i | 0 <= i < 4 :: Acceptable(first, cs[i]);
    assert Acceptable(second, cs[4]);
    var o1 := Submit(k, Initial(k), first, None);
    var o2 := Submit(k, o1.record, second, o1.notice);
    forall id | id in Ids(k) ensures id in o2.record.scores {
      var i :| 0 <= i < 5 && cs[i].id == id;
    }
  }
}
