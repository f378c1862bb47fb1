/** The configurable stage weighting: three integer percentages that must
    total 100, loaded from and saved to a persisted slot. */
module WeightConfig {
  import opened Common

  /** Per-stage weights, in percent. The component puts no bound on each
      field; only the total is checked. */
  datatype Weights = Weights(psychometric: int, technical: int, final: int)

  /** The sum of the three weights. */
  function Total(w: Weights): int {
    w.psychometric + w.technical + w.final
  }

  /** A triple the component accepts: the three fields total exactly 100. */
  predicate Balanced(w: Weights) {
    Total(w) == 100
  }

  /** The weighting in force before anything is loaded or submitted. */
  const Default: Weights := Weights(20, 40, 40)

  /** The weights adopted at start-up from the persisted slot. `stored` is
      the decoded value under the "evaluatorWeights" key; a missing key and
      a value that fails to parse are both `None`. A stored triple is
      adopted only when it is balanced; otherwise the defaults stay. */
  function Load(stored: Option<Weights>): (w: Weights)
    ensures Balanced(w)
    ensures stored.Some? && Balanced(stored.value) ==> w == stored.value
    ensures w != Default ==> stored == Some(w)
  {
    if stored.Some? && Balanced(stored.value) then stored.value else Default
  }

  /** The weights form as parsed: `None` stands for a field that does not
      parse as an integer (NaN), which makes the total NaN as well. */
  datatype WeightsForm = WeightsForm(psychometric: Option<int>, technical: Option<int>, final: Option<int>)

  /** The triple a submitted form would install, or `None` when the
      submission must be rejected because its total is not 100. */
  function Validate(f: WeightsForm): (r: Option<Weights>)
    ensures r.Some? ==> Balanced(r.value)
    ensures r.None? <==> f.psychometric.None? || f.technical.None? || f.final.None?
                         || f.psychometric.value + f.technical.value + f.final.value != 100
    ensures r.Some? ==> r.value == Weights(f.psychometric.value, f.technical.value, f.final.value)
  {
    if f.psychometric.None? || f.technical.None? || f.final.None? then None
    else
      var w := Weights(f.psychometric.value, f.technical.value, f.final.value);
      if Total(w) == 100 then Some(w) else None
  }

  /** A triple that passed validation and was persisted is exactly what the
      next start-up loads. */
  lemma SaveThenLoad(f: WeightsForm)
    requires Validate(f).Some?
    ensures Load(Some(Validate(f).value)) == Validate(f).value
  {
  }

  /** Load never adopts a stored triple whose total is not 100. */
  lemma LoadRejectsUnbalanced(stored: Weights)
    requires !Balanced(stored)
    ensures Load(Some(stored)) == Default
  {
  }
}
