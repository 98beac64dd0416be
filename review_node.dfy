/**
 * The human-review step. The pipeline pauses and a person's decision comes
 * back as a dictionary; the node turns it into a status update.
 */
module ReviewNode {
  import opened JsonValues
  import opened LeadStates
  import opened Routing

  /** What the paused pipeline shows the reviewer. */
  function ReviewRequest(s: State): (r: map<string, Json>)
    ensures r.Keys == {"lead_id", "company_name", "score", "confidence", "reason_for_review",
                       "scoring_breakdown", "draft_email_subject", "draft_email_body", "message"}
    ensures r["score"] == Get(s, "score", JInt(0)) && r["confidence"] == Get(s, "confidence", JFloat(0.0))
    ensures r["draft_email_body"] == Val(s, "draft_email_body") && r["company_name"] == Get(s, "company_name", JStr("Unknown"))
  {
    map["lead_id" := Val(s, "lead_id"),
        "company_name" := Get(s, "company_name", JStr("Unknown")),
        "score" := Get(s, "score", JInt(0)),
        "confidence" := Get(s, "confidence", JFloat(0.0)),
        "reason_for_review" := Get(s, "human_review_reason", JStr("")),
        "scoring_breakdown" := Val(s, "score_breakdown"),
        "draft_email_subject" := Val(s, "draft_email_subject"),
        "draft_email_body" := Val(s, "draft_email_body"),
        "message" := JStr("Please review this lead and approve or reject.")]
  }

  /** The action of a decision; a decision without one counts as a rejection. */
  function Action(decision: map<string, Json>): Json {
    Get(decision, "action", JStr("reject"))
  }

  /** What a review update must be, stated key by key. */
  predicate ReviewSpec(decision: map<string, Json>, now: string, u: State) {
    var approve := Action(decision) == JStr("approve");
    && u.Keys == {"updated_at", "human_feedback", "status"}
         + (if approve && Has(decision, "edited_email_body") then {"draft_email_body"} else {})
         + (if approve && Has(decision, "edited_email_subject") then {"draft_email_subject"} else {})
    && u["updated_at"] == JStr(now)
    && u["human_feedback"] == Get(decision, "feedback", JStr(""))
    && u["status"] == JStr(if approve then "approved" else if Action(decision) == JStr("rescore") then "new" else "rejected")
    && ("draft_email_body" in u ==> u["draft_email_body"] == decision["edited_email_body"])
    && ("draft_email_subject" in u ==> u["draft_email_subject"] == decision["edited_email_subject"])
  }

  /** `review_node` after the pause: builds the update one key at a time. */
  method Review(decision: map<string, Json>, now: string) returns (u: State)
    ensures ReviewSpec(decision, now, u)
    ensures u["status"] in {JStr("approved"), JStr("rejected"), JStr("new")}
    ensures "draft_email_body" in u || "draft_email_subject" in u ==> Action(decision) == JStr("approve")
  {
    var action := Get(decision, "action", JStr("reject"));
    u := map["updated_at" := JStr(now), "human_feedback" := Get(decision, "feedback", JStr(""))];
    if action == JStr("approve") {
      u := u["status" := JStr("approved")];
      if Has(decision, "edited_email_body") {
        u := u["draft_email_body" := decision["edited_email_body"]];
      }
      if Has(decision, "edited_email_subject") {
        u := u["draft_email_subject" := decision["edited_email_subject"]];
      }
    } else if action == JStr("reject") {
      u := u["status" := JStr("rejected")];
    } else if action == JStr("rescore") {
      u := u["status" := JStr("new")];
    } else {
      u := u["status" := JStr("rejected")];
    }
  }

  /**
   * After the update is applied, the router sends an approval to send when
   * a draft body is there (edited or earlier), to draft otherwise; a rescore
   * goes back to research; everything else ends in auto_reject.
   */
  lemma ReviewThenRoute(s: State, decision: map<string, Json>, now: string, u: State)
    requires ReviewSpec(decision, now, u)
    ensures Action(decision) == JStr("approve") ==>
      RouteAfterReview(Merge(s, u)) == (if Has(decision, "edited_email_body") || Has(s, "draft_email_body") then "send" else "draft")
    ensures Action(decision) == JStr("rescore") ==> RouteAfterReview(Merge(s, u)) == "research"
    ensures Action(decision) !in {JStr("approve"), JStr("rescore")} ==> RouteAfterReview(Merge(s, u)) == "auto_reject"
  {
    var m := Merge(s, u);
    assert Get(m, "status", JStr("")) == u["status"];
    if Action(decision) == JStr("approve") {
      if Has(decision, "edited_email_body") {
        assert Val(m, "draft_email_body") == decision["edited_email_body"];
      } else {
        assert Val(m, "draft_email_body") == Val(s, "draft_email_body");
      }
    }
  }
}
