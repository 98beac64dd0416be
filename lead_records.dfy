/**
 * The database rows: leads, e-mail log entries and daily usage counters,
 * with the types and defaults their columns declare. A row is kept as a
 * dictionary from column name to value, NULL being JNull; a timestamp
 * column holds a `datetime` (JTime), which `to_dict` turns into text.
 */
module LeadRecords {
  import opened Wrappers
  import opened JsonValues
  import opened LeadStates

  /** The columns of the `leads` table. */
  const LeadColumns: set<string> := {
    "lead_id", "company_name", "company_website", "contact_name", "contact_email", "contact_title", "source",
    "website_content", "search_results", "tech_stack", "open_positions", "recent_news",
    "company_description", "industry", "is_b2b", "employee_count", "company_size_category", "pain_points",
    "buying_signals", "ceo_name", "ceo_title", "ceo_linkedin", "company_email", "hr_email", "headquarters",
    "founded_year", "funding_status", "social_profiles",
    "score", "score_breakdown", "scoring_reasoning", "confidence",
    "draft_email_subject", "draft_email_body", "personalization_hooks",
    "status", "human_review_reason", "human_feedback", "error_message",
    "created_at", "updated_at", "processing_time_seconds"}

  type Record = map<string, Json>

  /** The SQLAlchemy column types the tables use. */
  datatype SqlType = StringType | TextType | IntegerType | FloatType | BooleanType | DateTimeType | JsonType

  /** The type each `leads` column is declared with. */
  function ColumnType(c: string): SqlType {
    if c in {"website_content", "company_description", "scoring_reasoning", "draft_email_body",
             "human_review_reason", "human_feedback", "error_message"} then TextType
    else if c in {"search_results", "tech_stack", "open_positions", "recent_news", "pain_points",
                  "buying_signals", "social_profiles", "score_breakdown", "personalization_hooks"} then JsonType
    else if c == "is_b2b" then BooleanType
    else if c == "score" then IntegerType
    else if c == "confidence" || c == "processing_time_seconds" then FloatType
    else if c == "created_at" || c == "updated_at" then DateTimeType
    else StringType
  }

  /** SQLite stores an integer in eight bytes; the driver refuses a larger one. */
  predicate FitsInt64(i: int) {
    -0x8000_0000_0000_0000 <= i < 0x8000_0000_0000_0000
  }

  /** `json.dumps` can write the value: no `datetime` anywhere inside it. */
  predicate Serializable(v: Json) {
    match v
    case JTime(_) => false
    case JList(items) => forall k :: 0 <= k < |items| ==> Serializable(items[k])
    case JObj(fields) => forall k :: 0 <= k < |fields| ==> Serializable(fields[k].1)
    case _ => true
  }

  /**
   * The value can be bound to a column of type `t` when the statement
   * runs. A JSON column serialises it with `json.dumps`. A Boolean column
   * takes only None, True and False (0 and 1 compare equal to those). The
   * SQLite DateTime type takes only a `datetime`. The other types hand the
   * value to the driver, which takes None, numbers, text and (through its
   * default adapter) a `datetime`, but not a list, a dict or an integer
   * wider than 64 bits.
   */
  predicate Binds(t: SqlType, v: Json) {
    match t
    case JsonType => Serializable(v)
    case BooleanType => v.JNull? || v.JBool? || (v.JInt? && (v.i == 0 || v.i == 1)) || (v.JFloat? && (v.r == 0.0 || v.r == 1.0))
    case DateTimeType => v.JNull? || v.JTime?
    case _ => v.JNull? || v.JBool? || v.JStr? || v.JFloat? || v.JTime? || (v.JInt? && FitsInt64(v.i))
  }

  /** The value `data` gives column `c`, if it gives one, binds to it. */
  predicate BindsAt(data: State, c: string) {
    c in data ==> Binds(ColumnType(c), data[c])
  }

  /** Every value of `data` binds to its `leads` column. */
  predicate RowBinds(data: State) {
    forall c {:trigger BindsAt(data, c)} :: c in data ==> BindsAt(data, c)
  }

  /** None, text, a float and a 64-bit integer bind to every column but the flag and the timestamps. */
  lemma ScalarBinds(c: string, v: Json)
    requires v.JNull? || v.JStr? || v.JFloat? || (v.JInt? && FitsInt64(v.i))
    requires c != "is_b2b" && c != "created_at" && c != "updated_at"
    ensures Binds(ColumnType(c), v)
  {
  }

  /** The value a lead column takes when the insert does not name it; `now` is the clock reading. */
  function LeadDefault(column: string, now: string): Json {
    if column == "source" then JStr("manual")
    else if column == "score" then JInt(0)
    else if column == "confidence" then JFloat(0.0)
    else if column == "status" then JStr("new")
    else if column == "created_at" || column == "updated_at" then JTime(now)
    else JNull
  }

  /** Every column default binds to its column. */
  lemma DefaultsBind(c: string, now: string)
    ensures Binds(ColumnType(c), LeadDefault(c, now))
  {
  }

  /** `LeadRecord(**data)` as inserted. */
  function NewLead(data: State, now: string): Record
    requires data.Keys <= LeadColumns
  {
    map c | c in LeadColumns :: if c in data then data[c] else LeadDefault(c, now)
  }

  /** The inserted row has every column: from `data` when it names it, else the column's default. */
  lemma NewLeadFields(data: State, now: string)
    requires data.Keys <= LeadColumns
    ensures NewLead(data, now).Keys == LeadColumns
    ensures forall c :: c in data ==> NewLead(data, now)[c] == data[c]
    ensures forall c :: c in LeadColumns && c !in data ==> NewLead(data, now)[c] == LeadDefault(c, now)
  {
  }

  /** A column `data` names gets its value. */
  lemma NewLeadGiven(data: State, now: string, c: string)
    requires data.Keys <= LeadColumns && c in data
    ensures NewLead(data, now)[c] == data[c]
  {
  }

  /** A column `data` does not name gets its default. */
  lemma NewLeadDefault(data: State, now: string, c: string)
    requires data.Keys <= LeadColumns && c in LeadColumns && c !in data
    ensures NewLead(data, now)[c] == LeadDefault(c, now)
  {
  }

  /** The unset columns get source "manual", score 0, confidence 0.0, status "new" and the insert time. */
  lemma NewLeadDefaults(data: State, now: string)
    requires data.Keys <= LeadColumns
    ensures "source" !in data ==> NewLead(data, now)["source"] == JStr("manual")
    ensures "score" !in data ==> NewLead(data, now)["score"] == JInt(0)
    ensures "confidence" !in data ==> NewLead(data, now)["confidence"] == JFloat(0.0)
    ensures "status" !in data ==> NewLead(data, now)["status"] == JStr("new")
    ensures "created_at" !in data && "updated_at" !in data ==>
      NewLead(data, now)["created_at"] == NewLead(data, now)["updated_at"] == JTime(now)
    ensures "company_website" !in data ==> NewLead(data, now)["company_website"] == JNull
  {
  }

  /**
   * The values the queries rely on: a text id and company name (the
   * primary key, and a NOT NULL column), an integer or NULL score, a text
   * or NULL status, and a `datetime` or NULL in each DateTime column.
   */
  predicate LeadShaped(r: Record) {
    && r.Keys == LeadColumns
    && r["lead_id"].JStr? && r["company_name"].JStr?
    && (r["score"].JInt? || r["score"].JNull?)
    && (r["status"].JStr? || r["status"].JNull?)
    && (r["created_at"].JTime? || r["created_at"].JNull?)
    && (r["updated_at"].JTime? || r["updated_at"].JNull?)
  }

  /** `.isoformat() if ts else None` on a DateTime column's value. */
  function IsoText(v: Json): (r: Json)
    ensures v.JTime? ==> r == JStr(v.iso)
    ensures !v.JTime? ==> r == JNull
  {
    if v.JTime? then JStr(v.iso) else JNull
  }

  predicate IsTimestamp(c: string) {
    c == "created_at" || c == "updated_at"
  }

  /** Both timestamp columns are DateTime columns. */
  lemma TimestampType(c: string)
    requires IsTimestamp(c)
    ensures ColumnType(c) == DateTimeType
  {
    if c == "created_at" {
      assert ColumnType("created_at") == DateTimeType;
    } else {
      assert ColumnType("updated_at") == DateTimeType;
    }
  }

  /** `LeadRecord.to_dict()`: every column by name, the two timestamps as ISO text or None. */
  function ToDict(r: Record): (d: State)
    ensures forall c :: c in LeadColumns && !IsTimestamp(c) ==> c in d && d[c] == Val(r, c)
    ensures "created_at" in d && d["created_at"] == IsoText(Val(r, "created_at"))
    ensures "updated_at" in d && d["updated_at"] == IsoText(Val(r, "updated_at"))
  {
    map c | c in LeadColumns :: if IsTimestamp(c) then IsoText(Val(r, c)) else Val(r, c)
  }

  /** `to_dict` gives every column, and nothing else. */
  lemma ToDictKeys(r: Record)
    ensures ToDict(r).Keys == LeadColumns
  {
  }

  /**
   * On a stored lead, `to_dict` gives back the row with its timestamps
   * turned into text: each DateTime column holds a `datetime` or NULL, and
   * comes out as its ISO text or None.
   */
  lemma ToDictOfLead(r: Record)
    requires LeadShaped(r)
    ensures ToDict(r) == r["created_at" := IsoText(r["created_at"])]["updated_at" := IsoText(r["updated_at"])]
    ensures r["created_at"].JTime? ==> ToDict(r)["created_at"] == JStr(r["created_at"].iso)
    ensures r["created_at"].JNull? ==> ToDict(r)["created_at"] == JNull
    ensures r["updated_at"].JTime? ==> ToDict(r)["updated_at"] == JStr(r["updated_at"].iso)
    ensures r["updated_at"].JNull? ==> ToDict(r)["updated_at"] == JNull
  {
  }

  /** A row of `user_usage`: one user's counters for one day. */
  datatype UserUsage = UserUsage(userId: string, date: string, searchCount: int, csvCount: int)

  /** `UserUsage(user_id=..., date=...)` with the column defaults for the counters. */
  function NewUsage(userId: string, date: string): (u: UserUsage)
    ensures u.userId == userId && u.date == date && u.searchCount == 0 && u.csvCount == 0
  {
    UserUsage(userId, date, 0, 0)
  }

  /** The `user_id` a usage row gets when none is given. */
  const DefaultUser := "default"

  /** `UserUsage.to_dict()` */
  function UsageToDict(u: UserUsage): (d: map<string, Json>)
    ensures d.Keys == {"user_id", "date", "search_count", "csv_count"}
    ensures d["user_id"] == JStr(u.userId) && d["date"] == JStr(u.date)
    ensures d["search_count"] == JInt(u.searchCount) && d["csv_count"] == JInt(u.csvCount)
  {
    map["user_id" := JStr(u.userId), "date" := JStr(u.date),
        "search_count" := JInt(u.searchCount), "csv_count" := JInt(u.csvCount)]
  }

  /** The columns of `email_logs` a caller may set; `id` is assigned by the database. */
  const EmailLogColumns: set<string> := {"lead_id", "to_email", "subject", "body", "status", "error", "sent_at"}

  /** The type each settable `email_logs` column is declared with. */
  function EmailLogType(c: string): SqlType {
    if c == "sent_at" then DateTimeType else if c == "body" || c == "error" then TextType else StringType
  }

  /** `EmailLog(**data)` as inserted: status defaults to "sent" and sent_at to the insert time. */
  function NewEmailLog(data: State, now: string): (r: Record)
    requires data.Keys <= EmailLogColumns
    ensures r.Keys == EmailLogColumns
    ensures forall c :: c in data ==> r[c] == data[c]
    ensures "status" !in data ==> r["status"] == JStr("sent")
    ensures "sent_at" !in data ==> r["sent_at"] == JTime(now)
    ensures forall c :: c in EmailLogColumns && c !in data && c != "status" && c != "sent_at" ==> r[c] == JNull
  {
    map c | c in EmailLogColumns ::
      if c in data then data[c] else if c == "status" then JStr("sent") else if c == "sent_at" then JTime(now) else JNull
  }
}
