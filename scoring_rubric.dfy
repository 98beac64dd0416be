/** The scoring rubric: criteria with bounded point values, and thresholds. */
module ScoringRubrics {
  import opened Wrappers

  /** QUALIFICATION_THRESHOLD and AUTO_REJECT_THRESHOLD at their default settings. */
  const QualificationThreshold: int := 70
  const AutoRejectThreshold: int := 20

  datatype Criterion = Criterion(name: string, description: string, maxPoints: int, evaluationPrompt: string)

  /** `max_points: int = Field(ge=0, le=100)` */
  predicate ValidCriterion(c: Criterion) {
    0 <= c.maxPoints <= 100
  }

  /** Building a ScoringCriterion: validation fails outside [0, 100]. */
  function MakeCriterion(name: string, description: string, maxPoints: int, evaluationPrompt: string): (r: Option<Criterion>)
    ensures r.Some? <==> 0 <= maxPoints <= 100
    ensures r.Some? ==> (ValidCriterion(r.value) && r.value.name == name && r.value.maxPoints == maxPoints
                         && r.value.description == description && r.value.evaluationPrompt == evaluationPrompt)
  {
    if 0 <= maxPoints <= 100 then Some(Criterion(name, description, maxPoints, evaluationPrompt)) else None
  }

  datatype Rubric = Rubric(qualificationThreshold: int, autoRejectThreshold: int, criteria: seq<Criterion>)

  predicate ValidRubric(r: Rubric) {
    forall i :: 0 <= i < |r.criteria| ==> ValidCriterion(r.criteria[i])
  }

  /** `ScoringRubric()` with every field at its default. */
  function DefaultRubric(): (r: Rubric)
    ensures r.qualificationThreshold == 70 && r.autoRejectThreshold == 20 && r.criteria == []
    ensures MaxTotalScore(r) == 0
  {
    Rubric(70, 20, [])
  }

  function SumMaxPoints(cs: seq<Criterion>): int {
    if cs == [] then 0 else cs[0].maxPoints + SumMaxPoints(cs[1..])
  }

  /** `max_total_score`: the sum of the criteria's max_points. */
  function MaxTotalScore(r: Rubric): (t: int)
    ensures ValidRubric(r) ==> 0 <= t <= 100 * |r.criteria|
  {
    if ValidRubric(r) then SumBounds(r.criteria); SumMaxPoints(r.criteria)
    else SumMaxPoints(r.criteria)
  }

  lemma {:induction false} SumBounds(cs: seq<Criterion>)
    requires forall i :: 0 <= i < |cs| ==> ValidCriterion(cs[i])
    ensures 0 <= SumMaxPoints(cs) <= 100 * |cs|
  {
    if cs != [] {
      assert ValidCriterion(cs[0]);
      SumBounds(cs[1..]);
    }
  }

  lemma {:induction false} SumAppend(cs: seq<Criterion>, c: Criterion)
    ensures SumMaxPoints(cs + [c]) == SumMaxPoints(cs) + c.maxPoints
  {
    if cs != [] {
      assert (cs + [c])[1..] == cs[1..] + [c];
      SumAppend(cs[1..], c);
    }
  }

  /** Adding a criterion raises max_total_score by exactly its max_points. */
  lemma AddCriterion(r: Rubric, c: Criterion)
    ensures MaxTotalScore(r.(criteria := r.criteria + [c])) == MaxTotalScore(r) + c.maxPoints
  {
    SumAppend(r.criteria, c);
  }

  /**
   * The rubric used when no rubric file is configured: five criteria of 20
   * points each (their evaluation prompts are not part of this model).
   */
  function FallbackRubric(): (r: Rubric)
    ensures ValidRubric(r) && |r.criteria| == 5
    ensures r.qualificationThreshold == QualificationThreshold && r.autoRejectThreshold == AutoRejectThreshold
    ensures MaxTotalScore(r) == 100
  {
    Rubric(QualificationThreshold, AutoRejectThreshold, [
      Criterion("b2b_fit", "Is this a B2B company?", 20, ""),
      Criterion("company_size", "Company has 50+ employees", 20, ""),
      Criterion("tech_stack_fit", "Uses relevant technologies", 20, ""),
      Criterion("buying_signals", "Shows active buying signals", 20, ""),
      Criterion("reachability", "Contact info availability", 20, "")])
  }
}
