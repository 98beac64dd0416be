/**
 * The state that flows through the lead pipeline. LeadState is a TypedDict
 * with `total=False`, so any key may be missing; the model keeps it as a
 * dictionary from key to value, with the declared type of each key kept
 * beside it as a schema.
 */
module LeadStates {
  import opened Wrappers
  import opened JsonValues

  type State = map<string, Json>

  /** The declared types of the LeadState keys. */
  datatype FieldType =
    | TStr          // str
    | TOptStr       // Optional[str]
    | TInt          // int
    | TFloat        // float (an int is accepted where a float is declared)
    | TOptFloat     // Optional[float]
    | TOptBool      // Optional[bool]
    | TOptStrList   // Optional[list[str]]
    | TOptDictList  // Optional[list[dict]]
    | TOptList      // a list whose items the code accepts in any shape
    | TOptDict      // Optional[dict]

  predicate HasType(j: Json, t: FieldType) {
    match t
    case TStr => j.JStr?
    case TOptStr => j.JStr? || j.JNull?
    case TInt => j.JInt?
    case TFloat => j.JFloat? || j.JInt?
    case TOptFloat => j.JFloat? || j.JInt? || j.JNull?
    case TOptBool => j.JBool? || j.JNull?
    case TOptStrList => j.JNull? || (j.JList? && forall i :: 0 <= i < |j.items| ==> j.items[i].JStr?)
    case TOptDictList => j.JNull? || (j.JList? && forall i :: 0 <= i < |j.items| ==> j.items[i].JObj?)
    case TOptList => j.JNull? || j.JList?
    case TOptDict => j.JNull? || j.JObj?
  }

  /**
   * The key table of LeadState. `recent_news` is declared as a list of dicts,
   * but every reader of it also accepts other items, so it is kept as TOptList.
   */
  function Schema(k: string): Option<FieldType> {
    if k in {"lead_id", "company_name", "source", "status", "created_at", "updated_at"} then Some(TStr)
    else if k in {"company_website", "contact_name", "contact_email", "contact_title", "sender_name",
                  "website_content", "company_description", "industry", "employee_count",
                  "company_size_category", "ceo_name", "ceo_title", "ceo_linkedin", "company_email",
                  "hr_email", "headquarters", "founded_year", "funding_status", "scoring_reasoning",
                  "draft_email_subject", "draft_email_body", "human_review_reason", "human_feedback",
                  "error_message"} then Some(TOptStr)
    else if k in {"tech_stack", "open_positions", "pain_points", "buying_signals",
                  "personalization_hooks"} then Some(TOptStrList)
    else if k == "search_results" then Some(TOptDictList)
    else if k == "recent_news" then Some(TOptList)
    else if k == "is_b2b" then Some(TOptBool)
    else if k in {"social_profiles", "score_breakdown"} then Some(TOptDict)
    else if k == "score" then Some(TInt)
    else if k == "confidence" then Some(TFloat)
    else if k == "processing_time_seconds" then Some(TOptFloat)
    else None
  }

  /** The key, when present, holds a value of the type LeadState declares for it. */
  predicate Annotated(s: State, k: string) {
    k in s && Schema(k).Some? ==> HasType(s[k], Schema(k).value)
  }

  /** The key is absent, None or a str: what `Optional[str]` allows. */
  predicate OptStr(s: State, k: string) {
    k in s ==> s[k].JStr? || s[k].JNull?
  }

  /** The key is absent, None or a list of str. */
  predicate OptStrList(s: State, k: string) {
    k in s ==> HasType(s[k], TOptStrList)
  }

  /** The key is absent, None or a list. */
  predicate OptList(s: State, k: string) {
    k in s ==> s[k].JNull? || s[k].JList?
  }

  /** The texts of an `Optional[list[str]]` value; None gives none. */
  function StrList(j: Json): (r: seq<string>)
    requires HasType(j, TOptStrList)
    ensures j.JList? ==> |r| == |j.items| && forall i :: 0 <= i < |r| ==> j.items[i] == JStr(r[i])
    ensures r == [] <==> !Truthy(j)
  {
    if j.JNull? then [] else seq(|j.items|, i requires 0 <= i < |j.items| => j.items[i].s)
  }

  predicate WellTyped(s: State) {
    forall k :: k in s ==> Annotated(s, k)
  }

  /** `state.get(k)` */
  function Val(s: State, k: string): Json {
    if k in s then s[k] else JNull
  }

  /** `state.get(k, default)` */
  function Get(s: State, k: string, default: Json): Json {
    if k in s then s[k] else default
  }

  /** `bool(state.get(k))` */
  predicate Has(s: State, k: string) {
    Truthy(Val(s, k))
  }

  /** A node's update dict is applied by overwriting the keys it names. */
  function Merge(s: State, u: State): (r: State)
    ensures r.Keys == s.Keys + u.Keys
    ensures forall k :: k in u ==> r[k] == u[k]
    ensures forall k :: k in s && k !in u ==> r[k] == s[k]
  {
    s + u
  }

  /** Applying well-typed updates to a well-typed state keeps it well-typed. */
  lemma MergeWellTyped(s: State, u: State)
    requires WellTyped(s) && WellTyped(u)
    ensures WellTyped(Merge(s, u))
  {
    var r := Merge(s, u);
    forall k | k in r ensures Annotated(r, k) {
      if k in u { assert Annotated(u, k); } else { assert Annotated(s, k); }
    }
  }

  /** The score as the routing code reads it: `state.get("score", 0)`. */
  function ScoreOf(s: State): int
    requires Annotated(s, "score")
  {
    if "score" in s then s["score"].i else 0
  }

  /** `state.get("confidence", 0.0)` */
  function ConfidenceOf(s: State): real
    requires Annotated(s, "confidence")
  {
    if "confidence" in s then (match s["confidence"] case JInt(i) => i as real case JFloat(r) => r) else 0.0
  }

  /** The text of an `Optional[str]` key, with `default` for a missing key or None. */
  function StrOr(s: State, k: string, default: string): string {
    match Val(s, k)
    case JStr(t) => t
    case _ => default
  }
}
