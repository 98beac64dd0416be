/**
 * The conditional edges of the lead pipeline: which node runs after
 * scoring, after drafting and after human review, and the explanation
 * shown to a reviewer.
 */
module Routing {
  import opened Wrappers
  import opened PyStrings
  import opened PyNumbers
  import opened JsonValues
  import opened LeadStates
  import opened ScoringRubrics

  /** `route_after_scoring` */
  function RouteAfterScoring(s: State): (r: string)
    requires Annotated(s, "score")
    ensures r == "auto_reject" <==> ScoreOf(s) < AutoRejectThreshold
    ensures r == "draft" <==> ScoreOf(s) >= AutoRejectThreshold
    ensures "score" !in s ==> r == "auto_reject"
  {
    if ScoreOf(s) < AutoRejectThreshold then "auto_reject" else "draft"
  }

  /** `route_after_drafting` */
  function RouteAfterDrafting(s: State): (r: string)
    requires Annotated(s, "score") && Annotated(s, "confidence")
    ensures r == "send" <==> ScoreOf(s) >= QualificationThreshold && ConfidenceOf(s) >= 0.7
    ensures r == "human_review" <==> !(ScoreOf(s) >= QualificationThreshold && ConfidenceOf(s) >= 0.7)
  {
    if ScoreOf(s) >= QualificationThreshold && ConfidenceOf(s) >= 0.7 then "send" else "human_review"
  }

  /** `route_after_review`: the status the review step wrote decides. */
  function RouteAfterReview(s: State): (r: string)
    ensures r == "send" <==> Get(s, "status", JStr("")) == JStr("approved") && Has(s, "draft_email_body")
    ensures r == "draft" <==> Get(s, "status", JStr("")) == JStr("approved") && !Has(s, "draft_email_body")
    ensures r == "research" <==> Get(s, "status", JStr("")) == JStr("new")
    ensures r == "auto_reject" <==> Get(s, "status", JStr("")) !in {JStr("approved"), JStr("new")}
  {
    var status := Get(s, "status", JStr(""));
    if status == JStr("approved") then
      (if Has(s, "draft_email_body") then "send" else "draft")
    else if status == JStr("new") then "research"
    else "auto_reject"
  }

  // ------------------------------------------------------------ weak criteria

  /**
   * `pct` for one breakdown entry: score/max when max is truthy, else 0.
   * None stands for the TypeError Python raises when score or max is not a
   * number.
   */
  function Ratio(data: JsonObject): (r: Option<real>)
    ensures !Truthy(FieldOr(data, "max", JNull)) ==> r == Some(0.0)
    ensures var n, d := AsNumber(FieldOr(data, "score", JInt(0))), AsNumber(FieldOr(data, "max", JNull));
      Truthy(FieldOr(data, "max", JNull)) ==>
        (r.Some? <==> n.Some? && d.Some?) && (r.Some? ==> r.value * d.value == n.value)
  {
    var mx := FieldOr(data, "max", JNull);
    if !Truthy(mx) then Some(0.0)
    else
      match (AsNumber(FieldOr(data, "score", JInt(0))), AsNumber(mx))
      case (Some(n), Some(d)) => if d == 0.0 then None else Some(n / d)
      case _ => None
  }

  /** The text naming a weak criterion: "name (score/max)". */
  function WeakItem(name: string, data: JsonObject): string {
    name + " (" + Show(FieldOr(data, "score", JInt(0))) + "/" + Show(FieldOr(data, "max", JInt(0))) + ")"
  }

  /** The entry is a dict whose ratio is below one half. */
  predicate IsWeak(entry: (string, Json)) {
    entry.1.JObj? && Ratio(entry.1.fields).Some? && Ratio(entry.1.fields).value < 0.5
  }

  /** The entry is a dict whose ratio cannot be computed. */
  predicate Raises(entry: (string, Json)) {
    entry.1.JObj? && Ratio(entry.1.fields).None?
  }

  /** The weak items of a breakdown in its order, or None when an entry raises. */
  function WeakItems(fields: JsonObject): Option<seq<string>> {
    if fields == [] then Some([])
    else if Raises(fields[0]) then None
    else match WeakItems(fields[1..])
      case None => None
      case Some(rest) =>
        Some((if IsWeak(fields[0]) then [WeakItem(fields[0].0, fields[0].1.fields)] else []) + rest)
  }

  /** WeakItems fails exactly when some entry raises. */
  lemma {:induction false} WeakItemsFails(fields: JsonObject)
    ensures WeakItems(fields).None? <==> exists i :: 0 <= i < |fields| && Raises(fields[i])
  {
    if fields != [] {
      WeakItemsFails(fields[1..]);
      if exists i :: 0 <= i < |fields[1..]| && Raises(fields[1..][i]) {
        var i :| 0 <= i < |fields[1..]| && Raises(fields[1..][i]);
        assert Raises(fields[i + 1]);
      }
      if exists i :: 0 <= i < |fields| && Raises(fields[i]) {
        var i :| 0 <= i < |fields| && Raises(fields[i]);
        if i > 0 { assert Raises(fields[1..][i - 1]); }
      }
    }
  }

  /** Every weak entry is listed, and nothing but weak entries is listed. */
  lemma {:induction false} WeakItemsComplete(fields: JsonObject)
    requires WeakItems(fields).Some?
    ensures var items := WeakItems(fields).value;
      (forall i :: 0 <= i < |fields| && IsWeak(fields[i]) ==> WeakItem(fields[i].0, fields[i].1.fields) in items)
      && (forall t :: t in items ==> exists i :: 0 <= i < |fields| && IsWeak(fields[i]) && t == WeakItem(fields[i].0, fields[i].1.fields))
      && |items| <= |fields|
  {
    if fields != [] {
      WeakItemsComplete(fields[1..]);
      var items := WeakItems(fields).value;
      var rest := WeakItems(fields[1..]).value;
      var head := if IsWeak(fields[0]) then [WeakItem(fields[0].0, fields[0].1.fields)] else [];
      assert items == head + rest;
      forall i | 0 <= i < |fields| && IsWeak(fields[i])
        ensures WeakItem(fields[i].0, fields[i].1.fields) in items
      {
        if i > 0 { assert fields[1..][i - 1] == fields[i]; }
      }
      forall t | t in items
        ensures exists i :: 0 <= i < |fields| && IsWeak(fields[i]) && t == WeakItem(fields[i].0, fields[i].1.fields)
      {
        if t in head {
          assert IsWeak(fields[0]) && t == WeakItem(fields[0].0, fields[0].1.fields);
        } else {
          var j :| 0 <= j < |fields[1..]| && IsWeak(fields[1..][j]) && t == WeakItem(fields[1..][j].0, fields[1..][j].1.fields);
          assert fields[j + 1] == fields[1..][j];
        }
      }
    }
  }

  /** The sentence `_identify_weak_criteria` returns, as a pure function of the breakdown. */
  function WeakCriteriaText(breakdown: Json): Option<string> {
    if !Truthy(breakdown) then Some("No scoring data available")
    else if !breakdown.JObj? then None
    else match WeakItems(breakdown.fields)
      case None => None
      case Some(items) => Some(if items == [] then "All criteria scored above 50%" else Join(items, ", "))
  }

  function Prepend(w: seq<string>, o: Option<seq<string>>): Option<seq<string>> {
    match o
    case None => None
    case Some(x) => Some(w + x)
  }

  /** One entry of the breakdown, as the loop below consumes it. */
  lemma WeakItemsStep(fields: JsonObject, k: nat)
    requires k < |fields|
    ensures WeakItems(fields[k..]) ==
      if Raises(fields[k]) then None
      else Prepend(if IsWeak(fields[k]) then [WeakItem(fields[k].0, fields[k].1.fields)] else [], WeakItems(fields[k + 1..]))
  {
    assert fields[k..][0] == fields[k] && fields[k..][1..] == fields[k + 1..];
  }

  lemma PrependTwice(a: seq<string>, b: seq<string>, o: Option<seq<string>>)
    ensures Prepend(a, Prepend(b, o)) == Prepend(a + b, o)
  {
    if o.Some? { assert a + (b + o.value) == (a + b) + o.value; }
  }

  /**
   * `_identify_weak_criteria`: walks the breakdown in order, collecting the
   * weak dict entries; None is the TypeError of a non-numeric score or max.
   */
  method IdentifyWeakCriteria(breakdown: Json) returns (r: Option<string>)
    ensures r == WeakCriteriaText(breakdown)
    ensures breakdown == JObj([]) || breakdown == JNull ==> r == Some("No scoring data available")
  {
    if !Truthy(breakdown) {
      return Some("No scoring data available");
    }
    if !breakdown.JObj? {
      return None;
    }
    var fields := breakdown.fields;
    var weak: seq<string> := [];
    var k := 0;
    assert fields[0..] == fields;
    assert Prepend([], WeakItems(fields)) == WeakItems(fields) by {
      if WeakItems(fields).Some? { assert [] + WeakItems(fields).value == WeakItems(fields).value; }
    }
    while k < |fields|
      invariant 0 <= k <= |fields|
      invariant WeakItems(fields) == Prepend(weak, WeakItems(fields[k..]))
    {
      var entry := fields[k];
      WeakItemsStep(fields, k);
      if entry.1.JObj? {
        var pct := Ratio(entry.1.fields);
        if pct.None? {
          return None;
        }
        if pct.value < 0.5 {
          PrependTwice(weak, [WeakItem(entry.0, entry.1.fields)], WeakItems(fields[k + 1..]));
          weak := weak + [WeakItem(entry.0, entry.1.fields)];
        } else {
          PrependTwice(weak, [], WeakItems(fields[k + 1..]));
          assert weak + [] == weak;
        }
      } else {
        PrependTwice(weak, [], WeakItems(fields[k + 1..]));
        assert weak + [] == weak;
      }
      k := k + 1;
    }
    assert WeakItems(fields[k..]) == Some([]);
    assert weak + [] == weak;
    return Some(if weak == [] then "All criteria scored above 50%" else Join(weak, ", "));
  }

  // ------------------------------------------------------------ review reason

  /**
   * `get_human_review_reason`, checked in order. The weak-criteria text is
   * computed before the borderline test, so a breakdown that raises makes
   * the whole call raise (None) unless the first case applies.
   */
  function HumanReviewReason(s: State): (r: Option<string>)
    requires Annotated(s, "score") && Annotated(s, "confidence")
    ensures ScoreOf(s) >= QualificationThreshold && ConfidenceOf(s) < 0.7 ==>
      r == Some("Score is " + IntStr(ScoreOf(s)) + " (qualified) but confidence is only "
                + PercentStr(ConfidenceOf(s)) + ". Research data may be incomplete.")
    ensures !(ScoreOf(s) >= QualificationThreshold && ConfidenceOf(s) < 0.7) ==>
      (r.None? <==> WeakCriteriaText(Get(s, "score_breakdown", JObj([]))).None?)
    ensures (!(ScoreOf(s) >= QualificationThreshold && ConfidenceOf(s) < 0.7) && ScoreOf(s) >= AutoRejectThreshold
             && r.Some?) ==> r.value == "Borderline score of " + IntStr(ScoreOf(s)) + "/100. Key gaps: "
                               + WeakCriteriaText(Get(s, "score_breakdown", JObj([]))).value
    ensures ScoreOf(s) < AutoRejectThreshold && r.Some? ==>
      r.value == "Low score of " + IntStr(ScoreOf(s)) + "/100. Likely not a fit."
  {
    var score := ScoreOf(s);
    var confidence := ConfidenceOf(s);
    if score >= QualificationThreshold && confidence < 0.7 then
      Some("Score is " + IntStr(score) + " (qualified) but confidence is only "
           + PercentStr(confidence) + ". Research data may be incomplete.")
    else
      match WeakCriteriaText(Get(s, "score_breakdown", JObj([])))
      case None => None
      case Some(weak) =>
        if score >= AutoRejectThreshold then Some("Borderline score of " + IntStr(score) + "/100. Key gaps: " + weak)
        else Some("Low score of " + IntStr(score) + "/100. Likely not a fit.")
  }
}
