/** The aggregated confidence score and the recommendation tier derived
    from it. */
module Scoring {
  import opened Common
  import opened Rubric
  import opened Stage
  import opened WeightConfig

  /** All three stages are completed. */
  predicate AllCompleted(st: Stages) {
    st.psychometric.completed && st.technical.completed && st.final.completed
  }

  /** A stage's total as the formula reads it: a null average counts as 0,
      as `null / 5` does in the component. */
  function TotalOf(r: StageRecord): int {
    r.total.GetOr(0)
  }

  /** The stage average on a 0..100 scale, `(average / 5) * 100`, exactly. */
  function Normalized(r: StageRecord): real {
    ((TotalOf(r) as real / 5.0) / 5.0) * 100.0
  }

  /** The weighted score before rounding, with exact arithmetic. */
  function ExactScore(st: Stages, w: Weights): real {
    Normalized(st.psychometric) * (w.psychometric as real) / 100.0
    + Normalized(st.technical) * (w.technical as real) / 100.0
    + Normalized(st.final) * (w.final as real) / 100.0
  }

  /** Rounding to the nearest integer with halves going up, as `Math.round`
      does. */
  function Round(x: real): int {
    (x + 0.5).Floor
  }

  /** The sum of each stage total times its weight. */
  function WeightedSum(st: Stages, w: Weights): int {
    TotalOf(st.psychometric) * w.psychometric
    + TotalOf(st.technical) * w.technical
    + TotalOf(st.final) * w.final
  }

  /** Integer division by 100 is the floor of the exact quotient. */
  lemma FloorOfQuotient(n: int)
    ensures ((n as real) / 100.0).Floor == n / 100
  {
    var q := n / 100;
    assert q * 100 <= n < q * 100 + 100;
    assert (q as real) * 100.0 <= n as real < (q as real) * 100.0 + 100.0;
    assert q as real <= (n as real) / 100.0 < q as real + 1.0;
  }

  /** One stage's contribution to the exact score is four times its total
      times its weight, over 100. */
  lemma ContributionExact(r: StageRecord, weight: int)
    ensures Normalized(r) * (weight as real) / 100.0 == (4 * (TotalOf(r) * weight)) as real / 100.0
  {
    var t := TotalOf(r);
    assert Normalized(r) == 4.0 * (t as real);
    assert (t as real) * (weight as real) == (t * weight) as real;
  }

  /** The exact score is four times the weighted sum, over 100. */
  lemma ExactScoreIsWeightedSum(st: Stages, w: Weights)
    ensures ExactScore(st, w) == (4 * WeightedSum(st, w)) as real / 100.0
  {
    ContributionExact(st.psychometric, w.psychometric);
    ContributionExact(st.technical, w.technical);
    ContributionExact(st.final, w.final);
  }

  /** The confidence score: null until all three stages are completed, and
      then the weighted average of the normalised stage averages, rounded
      as `Math.round` rounds it. Computed with integers only. */
  function FinalScore(st: Stages, w: Weights): (r: Option<int>)
    ensures r.Some? <==> AllCompleted(st)
    ensures r.Some? ==> r.value == Round(ExactScore(st, w))
  {
    if !AllCompleted(st) then None
    else
      ExactScoreIsWeightedSum(st, w);
      FloorOfQuotient(4 * WeightedSum(st, w) + 50);
      Some((4 * WeightedSum(st, w) + 50) / 100)
  }

  /** The exact score is a multiple of 0.04, so its fractional part is
      never a half and stays at least 0.02 away from one: `Math.round`
      never meets a tie, and floating-point error far below 0.02 cannot
      change the rounded score. */
  lemma ExactScoreClearOfHalf(st: Stages, w: Weights)
    ensures var x := ExactScore(st, w);
            x - (x.Floor as real) <= 0.48 || x - (x.Floor as real) >= 0.52
  {
    var m := WeightedSum(st, w);
    var n := 4 * m;
    ExactScoreIsWeightedSum(st, w);
    FloorOfQuotient(n);
    var q, r := m / 25, m % 25;
    assert n == 100 * q + 4 * r && 0 <= 4 * r < 100;
    assert n / 100 == q;
    var x := ExactScore(st, w);
    assert x == (n as real) / 100.0;
    assert x - (x.Floor as real) == (4 * r) as real / 100.0;
    assert 4 * r <= 48 || 4 * r >= 52;
  }

  /** With completed well-formed stages and non-negative weights totalling
      100, the confidence score lies between 20 (all averages 1) and 100
      (all averages 5). */
  lemma ScoreRange(st: Stages, w: Weights)
    requires AllWellFormed(st) && AllCompleted(st)
    requires Balanced(w) && w.psychometric >= 0 && w.technical >= 0 && w.final >= 0
    ensures FinalScore(st, w).Some?
    ensures 20 <= FinalScore(st, w).value <= 100
  {
    assert WellFormed(Psychometric, st.Get(Psychometric));
    assert WellFormed(Technical, st.Get(Technical));
    assert WellFormed(Final, st.Get(Final));
    ProductBounds(TotalOf(st.psychometric), w.psychometric);
    ProductBounds(TotalOf(st.technical), w.technical);
    ProductBounds(TotalOf(st.final), w.final);
  }

  /** A stage total in 5..25 times a non-negative weight. */
  lemma ProductBounds(t: int, weight: int)
    requires 5 <= t <= 25 && weight >= 0
    ensures 5 * weight <= t * weight <= 25 * weight
  {
  }

  /** Raising one stage's total, all else equal, never lowers the
      confidence score when the weights are non-negative. */
  lemma ScoreMonotone(st: Stages, st': Stages, w: Weights)
    requires AllCompleted(st) && AllCompleted(st')
    requires w.psychometric >= 0 && w.technical >= 0 && w.final >= 0
    requires TotalOf(st.psychometric) <= TotalOf(st'.psychometric)
    requires TotalOf(st.technical) <= TotalOf(st'.technical)
    requires TotalOf(st.final) <= TotalOf(st'.final)
    ensures FinalScore(st, w).value <= FinalScore(st', w).value
  {
    MonotoneProduct(TotalOf(st.psychometric), TotalOf(st'.psychometric), w.psychometric);
    MonotoneProduct(TotalOf(st.technical), TotalOf(st'.technical), w.technical);
    MonotoneProduct(TotalOf(st.final), TotalOf(st'.final), w.final);
    DivMonotone(4 * WeightedSum(st, w) + 50, 4 * WeightedSum(st', w) + 50);
  }

  /** Multiplying by a non-negative weight keeps order. */
  lemma MonotoneProduct(a: int, b: int, weight: int)
    requires a <= b && weight >= 0
    ensures a * weight <= b * weight
  {
  }

  /** Division by 100 keeps order. */
  lemma DivMonotone(a: int, b: int)
    requires a <= b
    ensures a / 100 <= b / 100
  {
  }

  /** The recommendation tiers, weakest first. */
  datatype Tier = NotRecommended | Borderline | Recommend | HighlyRecommend

  /** The position of a tier, weakest = 0. */
  function Rank(t: Tier): nat {
    match t
    case NotRecommended => 0
    case Borderline => 1
    case Recommend => 2
    case HighlyRecommend => 3
  }

  /** The lowest score that earns a tier. */
  function MinScore(t: Tier): int
    requires t != NotRecommended
  {
    match t
    case Borderline => 55
    case Recommend => 70
    case HighlyRecommend => 85
  }

  /** The tier as the component displays it. */
  function TierText(t: Tier): string {
    match t
    case NotRecommended => "Not Recommended"
    case Borderline => "Borderline"
    case Recommend => "Recommend"
    case HighlyRecommend => "Highly Recommend"
  }

  /** The tier for a score: the strongest tier whose threshold the score
      reaches, "Not Recommended" when it reaches none. */
  function GetRecommendation(score: int): (t: Tier)
    ensures t != NotRecommended ==> MinScore(t) <= score
    ensures forall u: Tier | Rank(u) > Rank(t) :: score < MinScore(u)
  {
    if score >= 85 then HighlyRecommend
    else if score >= 70 then Recommend
    else if score >= 55 then Borderline
    else NotRecommended
  }

  /** A higher score never gets a weaker tier. */
  lemma RecommendationMonotone(a: int, b: int)
    requires a <= b
    ensures Rank(GetRecommendation(a)) <= Rank(GetRecommendation(b))
  {
  }

  /** The tier shown, if any: none while the score is null and none for a
      score of 0 (the component tests the score for truthiness). */
  function Recommendation(score: Option<int>): (r: Option<Tier>)
    ensures r.None? <==> score.None? || score.value == 0
    ensures r.Some? ==> r.value == GetRecommendation(score.value)
  {
    if score.None? || score.value == 0 then None else Some(GetRecommendation(score.value))
  }

  /** A completed stage record with the given total, for the examples. */
  function CompletedWith(k: StageKey, total: int): StageRecord {
    Initial(k).(completed := true, total := Some(total))
  }

  /** Averages 4.0, 3.0 and 5.0 under the default weights score 80, which
      is "Recommend"; all fives score 100 ("Highly Recommend"); all twos
      score 40 ("Not Recommended"). */
  lemma WorkedExamples()
    ensures FinalScore(Stages(CompletedWith(Psychometric, 20), CompletedWith(Technical, 15),
                              CompletedWith(Final, 25)), Default) == Some(80)
    ensures GetRecommendation(80) == Recommend
    ensures FinalScore(Stages(CompletedWith(Psychometric, 25), CompletedWith(Technical, 25),
                              CompletedWith(Final, 25)), Default) == Some(100)
    ensures GetRecommendation(100) == HighlyRecommend
    ensures FinalScore(Stages(CompletedWith(Psychometric, 10), CompletedWith(Technical, 10),
                              CompletedWith(Final, 10)), Default) == Some(40)
    ensures GetRecommendation(40) == NotRecommended
  {
  }
}
