/**
 * The last two pipeline steps: sending the drafted e-mail, and marking a
 * low-scoring lead as rejected.
 */
module SendNode {
  import opened Wrappers
  import opened JsonValues
  import opened LeadStates

  /** What the mail sender did: delivered, reported failure, or raised. */
  datatype SendOutcome = Delivered | Refused | Raised(message: string)

  /** The message handed to the mail sender: recipient, subject, body. */
  datatype Message = Message(to: Json, subject: Json, body: Json)

  function ContactEmail(s: State): Json { Get(s, "contact_email", JStr("")) }
  function Subject(s: State): Json { Get(s, "draft_email_subject", JStr("")) }
  function Body(s: State): Json { Get(s, "draft_email_body", JStr("")) }

  /**
   * `send_node`: the guards run in order and return early, so no message is
   * handed over without a recipient, a subject and a body.
   */
  method Send(s: State, outcome: SendOutcome, now: string) returns (u: State, sent: Option<Message>)
    ensures "updated_at" in u && u["updated_at"] == JStr(now)
    ensures !Truthy(ContactEmail(s)) ==>
      sent == None && u == map["updated_at" := JStr(now), "status" := JStr("failed"),
                               "error_message" := JStr("No contact email available")]
    ensures Truthy(ContactEmail(s)) && !(Truthy(Subject(s)) && Truthy(Body(s))) ==>
      sent == None && u == map["updated_at" := JStr(now), "status" := JStr("failed"),
                               "error_message" := JStr("No email draft available")]
    ensures sent.Some? <==> Truthy(ContactEmail(s)) && Truthy(Subject(s)) && Truthy(Body(s))
    ensures sent.Some? ==> sent.value == Message(ContactEmail(s), Subject(s), Body(s))
    ensures sent.Some? && outcome.Delivered? ==> u == map["updated_at" := JStr(now), "status" := JStr("sent")]
    ensures sent.Some? && outcome.Refused? ==>
      u == map["updated_at" := JStr(now), "status" := JStr("failed"), "error_message" := JStr("Email sending returned failure")]
    ensures sent.Some? && outcome.Raised? ==>
      u == map["updated_at" := JStr(now), "status" := JStr("failed"), "error_message" := JStr(outcome.message)]
    ensures u["status"] == JStr("sent") <==> sent.Some? && outcome.Delivered?
    ensures u["status"] in {JStr("sent"), JStr("failed")}
  {
    var contactEmail := Get(s, "contact_email", JStr(""));
    var subject := Get(s, "draft_email_subject", JStr(""));
    var body := Get(s, "draft_email_body", JStr(""));
    u := map["updated_at" := JStr(now)];
    if !Truthy(contactEmail) {
      u := u["status" := JStr("failed")];
      u := u["error_message" := JStr("No contact email available")];
      return u, None;
    }
    if !Truthy(subject) || !Truthy(body) {
      u := u["status" := JStr("failed")];
      u := u["error_message" := JStr("No email draft available")];
      return u, None;
    }
    sent := Some(Message(contactEmail, subject, body));
    match outcome {
      case Delivered =>
        u := u["status" := JStr("sent")];
      case Refused =>
        u := u["status" := JStr("failed")];
        u := u["error_message" := JStr("Email sending returned failure")];
      case Raised(m) =>
        u := u["status" := JStr("failed")];
        u := u["error_message" := JStr(m)];
    }
  }

  /** `auto_reject_node` */
  function AutoReject(s: State, now: string): (u: State)
    ensures u.Keys == {"status", "updated_at", "human_review_reason"}
    ensures u["status"] == JStr("rejected") && u["updated_at"] == JStr(now)
    ensures u["human_review_reason"] == JStr("Auto-rejected: Score " + Show(Get(s, "score", JInt(0))) + "/100 is below minimum threshold.")
    ensures WellTyped(u)
  {
    map["status" := JStr("rejected"),
        "updated_at" := JStr(now),
        "human_review_reason" := JStr("Auto-rejected: Score " + Show(Get(s, "score", JInt(0))) + "/100 is below minimum threshold.")]
  }
}
