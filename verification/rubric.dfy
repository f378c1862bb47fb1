/** The three fixed interview rubrics: one ordered list of five criteria per stage. */
module Rubric {

  /** The three interview stages, in workflow order. */
  datatype StageKey = Psychometric | Technical | Final

  /** A rubric entry: the key used in the score and comment maps, and the
      caption shown to the operator (and quoted in validation alerts). */
  datatype Criterion = Criterion(id: string, caption: string)

  /** The stage key as the component spells it (`stageKey`). */
  function KeyName(k: StageKey): string {
    match k
    case Psychometric => "psychometric"
    case Technical => "technical"
    case Final => "final"
  }

  /** The stage key with its first letter upper-cased, as used in the
      "stage saved" alert. */
  function Title(k: StageKey): (t: string)
    ensures |t| == |KeyName(k)| && t[1..] == KeyName(k)[1..]
    ensures 'a' <= KeyName(k)[0] <= 'z' && 'A' <= t[0] <= 'Z'
    ensures t[0] as int == KeyName(k)[0] as int - ('a' as int - 'A' as int)
  {
    match k
    case Psychometric => "Psychometric"
    case Technical => "Technical"
    case Final => "Final"
  }

  /** The ordered criteria of each stage. */
  function Criteria(k: StageKey): (cs: seq<Criterion>)
    ensures |cs| == 5
  {
    match k
    case Psychometric =>
      [ Criterion("communication", "Communication Skills"),
        Criterion("problemSolving", "Problem Solving"),
        Criterion("teamwork", "Teamwork & Collaboration"),
        Criterion("adaptability", "Adaptability"),
        Criterion("motivation", "Motivation & Drive") ]
    case Technical =>
      [ Criterion("technicalKnowledge", "Technical Knowledge"),
        Criterion("codingQuality", "Coding Quality"),
        Criterion("systemDesign", "System Design"),
        Criterion("bestPractices", "Best Practices"),
        Criterion("toolsProficiency", "Tools Proficiency") ]
    case Final =>
      [ Criterion("cultureFit", "Culture Fit"),
        Criterion("leadership", "Leadership Potential"),
        Criterion("longTermVision", "Long-term Vision"),
        Criterion("professionalism", "Professionalism"),
        Criterion("overallImpression", "Overall Impression") ]
  }

  /** The ids of a list of criteria, as a set. */
  function IdsOf(cs: seq<Criterion>): set<string> {
    set i | 0 <= i < |cs| :: cs[i].id
  }

  /** The criterion ids of a stage, as a set. */
  function Ids(k: StageKey): set<string> {
    IdsOf(Criteria(k))
  }

  /** No two criteria of one stage share an id. */
  predicate DistinctIds(cs: seq<Criterion>) {
    forall i, j | 0 <= i < j < |cs| :: cs[i].id != cs[j].id
  }

  /** Every rubric has five criteria with pairwise distinct ids, so a stage
      has exactly five score slots. */
  lemma RubricIdsDistinct(k: StageKey)
    ensures DistinctIds(Criteria(k))
    ensures |Ids(k)| == 5
  {
    match k {
      case Psychometric => PsychometricDistinct();
      case Technical => TechnicalDistinct();
      case Final => FinalDistinct();
    }
    FiveDistinctIds(Criteria(k));
  }

  lemma PsychometricDistinct()
    ensures DistinctIds(Criteria(Psychometric))
  {
  }

  lemma TechnicalDistinct()
    ensures DistinctIds(Criteria(Technical))
  {
  }

  lemma FinalDistinct()
    ensures DistinctIds(Criteria(Final))
  {
  }

  /** Five criteria with pairwise distinct ids have five ids. */
  lemma FiveDistinctIds(cs: seq<Criterion>)
    requires |cs| == 5 && DistinctIds(cs)
    ensures |IdsOf(cs)| == 5
  {
    assert IdsOf(cs) == {cs[0].id, cs[1].id, cs[2].id, cs[3].id, cs[4].id} by {
      forall id | id in IdsOf(cs) ensures id in {cs[0].id, cs[1].id, cs[2].id, cs[3].id, cs[4].id} {
        var i :| 0 <= i < 5 && cs[i].id == id;
      }
    }
  }
}
