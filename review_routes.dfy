/**
 * The human review routes: the review queue, and approve, reject and
 * rescore, each of which looks the lead up (404 when it is missing) and
 * writes the reviewer's decision onto its row.
 */
module ReviewRoutes {
  import opened Wrappers
  import opened JsonValues
  import opened LeadStates
  import opened LeadRecords
  import opened LeadTable
  import opened Database
  import opened Http
  import PyLists

  /** The request body; `action` is carried but no route reads it. */
  datatype ReviewDecision = ReviewDecision(
    action: string, feedback: Option<string>, editedSubject: Option<string>, editedBody: Option<string>)

  /** The optional text is given and non-empty, so Python's `if value:` holds. */
  predicate Given(value: Option<string>) {
    value.Some? && value.value != ""
  }

  /** The columns approve writes. */
  function ApproveUpdates(d: ReviewDecision): (u: State)
    ensures u.Keys == {"status", "human_feedback"}
      + (if Given(d.editedSubject) then {"draft_email_subject"} else {})
      + (if Given(d.editedBody) then {"draft_email_body"} else {})
  {
    var base := map["status" := JStr("approved"), "human_feedback" := JStr(OrText(d.feedback, "Approved by human reviewer"))];
    var withSubject := if Given(d.editedSubject) then base["draft_email_subject" := JStr(d.editedSubject.value)] else base;
    if Given(d.editedBody) then withSubject["draft_email_body" := JStr(d.editedBody.value)] else withSubject
  }

  /** The columns reject writes. */
  function RejectUpdates(d: ReviewDecision): (u: State)
    ensures u.Keys == {"status", "human_feedback"}
  {
    map["status" := JStr("rejected"), "human_feedback" := JStr(OrText(d.feedback, "Rejected by human reviewer"))]
  }

  /** The columns rescore writes. */
  function RescoreUpdates(d: ReviewDecision): (u: State)
    ensures u.Keys == {"status", "human_feedback", "score", "confidence"}
  {
    map["status" := JStr("new"), "human_feedback" := JStr(OrText(d.feedback, "Rescore requested")),
        "score" := JInt(0), "confidence" := JFloat(0.0)]
  }

  /**
   * An approved lead has status "approved", the reviewer's feedback or the
   * stock text, the edited subject and body where the reviewer gave them and
   * the drafted ones otherwise, and its score and confidence as they were.
   */
  lemma ApprovedRow(r: Record, d: ReviewDecision, now: string)
    requires LeadShaped(r)
    ensures var u := UpdatedRow(r, ApproveUpdates(d), now);
      && u["status"] == JStr("approved")
      && u["human_feedback"] == JStr(if Given(d.feedback) then d.feedback.value else "Approved by human reviewer")
      && u["draft_email_subject"] == (if Given(d.editedSubject) then JStr(d.editedSubject.value) else r["draft_email_subject"])
      && u["draft_email_body"] == (if Given(d.editedBody) then JStr(d.editedBody.value) else r["draft_email_body"])
      && u["score"] == r["score"] && u["confidence"] == r["confidence"]
      && u["updated_at"] == JTime(now)
  {
    var data := ApproveUpdates(d);
    ReviewColumns();
    UpdatedWrites(r, data, now, "status");
    UpdatedWrites(r, data, now, "human_feedback");
    if Given(d.editedSubject) {
      UpdatedWrites(r, data, now, "draft_email_subject");
    } else {
      UpdatedKeeps(r, data, now, "draft_email_subject");
    }
    if Given(d.editedBody) {
      UpdatedWrites(r, data, now, "draft_email_body");
    } else {
      UpdatedKeeps(r, data, now, "draft_email_body");
    }
    UpdatedKeeps(r, data, now, "score");
    UpdatedKeeps(r, data, now, "confidence");
  }

  /** A rejected lead has status "rejected", the feedback or the stock text, and keeps its score, confidence and draft. */
  lemma RejectedRow(r: Record, d: ReviewDecision, now: string)
    requires LeadShaped(r)
    ensures var u := UpdatedRow(r, RejectUpdates(d), now);
      && u["status"] == JStr("rejected")
      && u["human_feedback"] == JStr(if Given(d.feedback) then d.feedback.value else "Rejected by human reviewer")
      && u["score"] == r["score"] && u["confidence"] == r["confidence"]
      && u["draft_email_subject"] == r["draft_email_subject"] && u["draft_email_body"] == r["draft_email_body"]
      && u["updated_at"] == JTime(now)
  {
    var data := RejectUpdates(d);
    ReviewColumns();
    UpdatedWrites(r, data, now, "status");
    UpdatedWrites(r, data, now, "human_feedback");
    UpdatedKeeps(r, data, now, "draft_email_subject");
    UpdatedKeeps(r, data, now, "draft_email_body");
    UpdatedKeeps(r, data, now, "score");
    UpdatedKeeps(r, data, now, "confidence");
  }

  /** A rescored lead is "new" again, with score 0 and confidence 0.0, so the batch run picks it up; its draft stays. */
  lemma RescoredRow(r: Record, d: ReviewDecision, now: string)
    requires LeadShaped(r)
    ensures var u := UpdatedRow(r, RescoreUpdates(d), now);
      && u["status"] == JStr("new")
      && u["human_feedback"] == JStr(if Given(d.feedback) then d.feedback.value else "Rescore requested")
      && u["score"] == JInt(0) && u["confidence"] == JFloat(0.0)
      && u["draft_email_subject"] == r["draft_email_subject"] && u["draft_email_body"] == r["draft_email_body"]
      && u["updated_at"] == JTime(now)
  {
    var data := RescoreUpdates(d);
    ReviewColumns();
    UpdatedWrites(r, data, now, "status");
    UpdatedWrites(r, data, now, "human_feedback");
    UpdatedWrites(r, data, now, "score");
    UpdatedWrites(r, data, now, "confidence");
    UpdatedKeeps(r, data, now, "draft_email_subject");
    UpdatedKeeps(r, data, now, "draft_email_body");
  }

  /** The columns and values approve writes are ones `Decide` can commit. */
  predicate Committable(updates: State) {
    updates.Keys <= LeadColumns - {"lead_id", "company_name"} && ValuesShaped(updates) && RowBinds(updates)
  }

  /** The values a review writes are text and numbers, which bind to their columns. */
  lemma ReviewUpdatesBind(d: ReviewDecision)
    ensures Committable(ApproveUpdates(d)) && Committable(RejectUpdates(d)) && Committable(RescoreUpdates(d))
  {
    UpdatesCommittable(ApproveUpdates(d));
    UpdatesCommittable(RejectUpdates(d));
    UpdatesCommittable(RescoreUpdates(d));
  }

  /** Updates of review columns to text or numbers can be committed. */
  lemma UpdatesCommittable(u: State)
    requires u.Keys <= {"status", "human_feedback", "draft_email_subject", "draft_email_body", "score", "confidence"}
    requires forall c :: c in u ==> u[c].JStr? || u[c].JFloat? || (u[c].JInt? && FitsInt64(u[c].i))
    requires ("score" in u ==> u["score"].JInt?) && ("status" in u ==> u["status"].JStr?)
    ensures Committable(u)
  {
    ReviewColumns();
    forall c | c in u ensures BindsAt(u, c) {
      ScalarBinds(c, u[c]);
    }
  }

  /** The columns a review reads or writes are lead columns. */
  lemma ReviewColumns()
    ensures "status" in LeadColumns && "human_feedback" in LeadColumns
    ensures "draft_email_subject" in LeadColumns && "draft_email_body" in LeadColumns
    ensures "score" in LeadColumns && "confidence" in LeadColumns
  {
  }

  /**
   * The write every decision route ends in: a missing lead is a 404 and
   * nothing changes; otherwise the row with the id gets `updates`, which
   * always commits, and the reply is `text` with the id.
   */
  method Decide(db: LeadDatabase, leadId: string, updates: State, text: string, now: string) returns (r: Response<State>)
    requires db.Valid()
    requires Committable(updates)
    modifies db
    ensures db.Valid()
    ensures Find(old(db.leads), leadId).None? ==> r == NotFound && db.leads == old(db.leads)
    ensures Find(old(db.leads), leadId).Some? ==>
      r == Body(Message(text, leadId)) && db.leads == UpdateRows(old(db.leads), leadId, updates, now)
    ensures db.usage == old(db.usage) && db.emailLogs == old(db.emailLogs)
  {
    var record := db.GetLead(leadId);
    if record.None? {
      return NotFound;
    }
    UpdateAllSucceeds(db.leads, leadId, updates, now);
    var _ := db.UpdateLead(leadId, updates, now);
    r := Body(Message(text, leadId));
  }

  /** `approve_lead`: the updates are built as the route builds them, the edits only when given. */
  method Approve(db: LeadDatabase, leadId: string, d: ReviewDecision, now: string) returns (r: Response<State>)
    requires db.Valid()
    modifies db
    ensures db.Valid()
    ensures Find(old(db.leads), leadId).None? ==> r == NotFound && db.leads == old(db.leads)
    ensures Find(old(db.leads), leadId).Some? ==>
      r == Body(Message("Lead approved", leadId)) && db.leads == UpdateRows(old(db.leads), leadId, ApproveUpdates(d), now)
    ensures db.usage == old(db.usage) && db.emailLogs == old(db.emailLogs)
  {
    var updates := map["status" := JStr("approved"), "human_feedback" := JStr(OrText(d.feedback, "Approved by human reviewer"))];
    if d.editedSubject.Some? && d.editedSubject.value != "" {
      updates := updates["draft_email_subject" := JStr(d.editedSubject.value)];
    }
    if d.editedBody.Some? && d.editedBody.value != "" {
      updates := updates["draft_email_body" := JStr(d.editedBody.value)];
    }
    assert updates == ApproveUpdates(d) by {
      assert updates.Keys == ApproveUpdates(d).Keys;
    }
    ReviewUpdatesBind(d);
    r := Decide(db, leadId, updates, "Lead approved", now);
  }

  /** `reject_lead` */
  method Reject(db: LeadDatabase, leadId: string, d: ReviewDecision, now: string) returns (r: Response<State>)
    requires db.Valid()
    modifies db
    ensures db.Valid()
    ensures Find(old(db.leads), leadId).None? ==> r == NotFound && db.leads == old(db.leads)
    ensures Find(old(db.leads), leadId).Some? ==>
      r == Body(Message("Lead rejected", leadId)) && db.leads == UpdateRows(old(db.leads), leadId, RejectUpdates(d), now)
    ensures db.usage == old(db.usage) && db.emailLogs == old(db.emailLogs)
  {
    ReviewUpdatesBind(d);
    r := Decide(db, leadId, RejectUpdates(d), "Lead rejected", now);
  }

  /** `rescore_lead` */
  method Rescore(db: LeadDatabase, leadId: string, d: ReviewDecision, now: string) returns (r: Response<State>)
    requires db.Valid()
    modifies db
    ensures db.Valid()
    ensures Find(old(db.leads), leadId).None? ==> r == NotFound && db.leads == old(db.leads)
    ensures Find(old(db.leads), leadId).Some? ==>
      r == Body(Message("Lead queued for re-research", leadId)) && db.leads == UpdateRows(old(db.leads), leadId, RescoreUpdates(d), now)
    ensures db.usage == old(db.usage) && db.emailLogs == old(db.emailLogs)
  {
    ReviewUpdatesBind(d);
    r := Decide(db, leadId, RescoreUpdates(d), "Lead queued for re-research", now);
  }

  /**
   * `get_review_queue` as served: the dictionaries of the stored rows
   * awaiting review, highest score first, with every such row there.
   */
  method GetReviewQueue(db: LeadDatabase) returns (r: seq<State>)
    requires db.Valid()
    ensures |r| == |ReviewQueue(db.leads)| && forall i :: 0 <= i < |r| ==> r[i] == ToDict(ReviewQueue(db.leads)[i])
    ensures Ordering.SortedBy(r, HighestScoreFirst)
    ensures forall i :: 0 <= i < |r| ==> Val(r[i], "status") == JStr("human_review")
    ensures forall i :: 0 <= i < |db.leads| && Val(db.leads[i], "status") == JStr("human_review") ==> ToDict(db.leads[i]) in r
  {
    var records := db.GetReviewQueue();
    ReviewQueueEffect(db.leads);
    r := PyLists.MapSeq(records, ToDict);
    ToDictKeepsOrder(records, r);
    forall i | 0 <= i < |db.leads| && Val(db.leads[i], "status") == JStr("human_review") ensures ToDict(db.leads[i]) in r {
      var k :| 0 <= k < |records| && records[k] == db.leads[i];
      assert r[k] == ToDict(db.leads[i]);
    }
  }

  /** `to_dict` keeps the score and the status, so the dictionaries keep the queue's order and status. */
  lemma ToDictKeepsOrder(records: seq<Record>, r: seq<State>)
    requires |r| == |records| && (forall i :: 0 <= i < |r| ==> r[i] == ToDict(records[i]))
    requires Ordering.SortedBy(records, HighestScoreFirst)
    requires forall i :: 0 <= i < |records| ==> Val(records[i], "status") == JStr("human_review")
    ensures Ordering.SortedBy(r, HighestScoreFirst)
    ensures forall i :: 0 <= i < |r| ==> Val(r[i], "status") == JStr("human_review")
  {
    forall i | 0 <= i < |r| ensures Val(r[i], "score") == Val(records[i], "score") && Val(r[i], "status") == Val(records[i], "status") {
      ScoreAndStatusColumns();
    }
  }

  /** `score` and `status` are columns and not timestamps. */
  lemma ScoreAndStatusColumns()
    ensures "score" in LeadColumns && !IsTimestamp("score")
    ensures "status" in LeadColumns && !IsTimestamp("status")
  {
  }
}
