/**
 * The lead routes: create, list, get and delete; `process_lead`, which is
 * gated by the daily search quota and hands the lead to the pipeline; the
 * write-back of a pipeline run; and `batch_process`. The uuid, the clock
 * and the request headers are parameters; the pipeline run itself happens
 * in a background task and reaches the model only as its outcome.
 */
module LeadRoutes {
  import opened Wrappers
  import opened JsonValues
  import opened LeadStates
  import opened LeadRecords
  import opened LeadTable
  import opened Database
  import opened Http
  import Routing
  import PyLists

  /** The body of `POST /api/leads`. */
  datatype CreateLeadRequest = CreateLeadRequest(
    companyName: string, companyWebsite: Option<string>, contactName: Option<string>,
    contactEmail: Option<string>, contactTitle: Option<string>)

  /** An `Optional[str]` as a column value. */
  function OptText(o: Option<string>): Json {
    if o.Some? then JStr(o.value) else JNull
  }

  /** The columns `create_lead` inserts, with `leadId` the fresh uuid and `now` the clock reading. */
  function CreateData(req: CreateLeadRequest, leadId: string, now: string): State {
    map["lead_id" := JStr(leadId), "company_name" := JStr(req.companyName),
        "company_website" := OptText(req.companyWebsite), "contact_name" := OptText(req.contactName),
        "contact_email" := OptText(req.contactEmail), "contact_title" := OptText(req.contactTitle),
        "source" := JStr("manual"), "status" := JStr("new"), "score" := JInt(0), "confidence" := JFloat(0.0),
        "created_at" := JTime(now), "updated_at" := JTime(now)]
  }

  lemma CreateDataColumns(req: CreateLeadRequest, leadId: string, now: string)
    ensures CreateData(req, leadId, now).Keys <= LeadColumns
  {
  }

  /** The values `create_lead` gives its columns. */
  lemma CreateDataValues(req: CreateLeadRequest, leadId: string, now: string)
    ensures var d := CreateData(req, leadId, now);
      && d["lead_id"] == JStr(leadId) && d["company_name"] == JStr(req.companyName)
      && d["company_website"] == OptText(req.companyWebsite) && d["contact_name"] == OptText(req.contactName)
      && d["contact_email"] == OptText(req.contactEmail) && d["contact_title"] == OptText(req.contactTitle)
      && d["source"] == JStr("manual") && d["status"] == JStr("new")
      && d["score"] == JInt(0) && d["confidence"] == JFloat(0.0)
      && d["created_at"] == d["updated_at"] == JTime(now)
  {
    CreateDataGiven(req, leadId, now);
    CreateDataFixed(req, leadId, now);
  }

  /** The id and the request's own fields. */
  lemma CreateDataGiven(req: CreateLeadRequest, leadId: string, now: string)
    ensures var d := CreateData(req, leadId, now);
      && d["lead_id"] == JStr(leadId) && d["company_name"] == JStr(req.companyName)
      && d["company_website"] == OptText(req.companyWebsite) && d["contact_name"] == OptText(req.contactName)
      && d["contact_email"] == OptText(req.contactEmail) && d["contact_title"] == OptText(req.contactTitle)
  {
  }

  /** The values every new lead starts with. */
  lemma CreateDataFixed(req: CreateLeadRequest, leadId: string, now: string)
    ensures var d := CreateData(req, leadId, now);
      && d["source"] == JStr("manual") && d["status"] == JStr("new")
      && d["score"] == JInt(0) && d["confidence"] == JFloat(0.0)
      && d["created_at"] == d["updated_at"] == JTime(now)
  {
  }

  /** Every value `create_lead` inserts binds to its column: text, numbers, None and the `datetime`. */
  lemma CreateDataBinds(req: CreateLeadRequest, leadId: string, now: string)
    ensures RowBinds(CreateData(req, leadId, now))
  {
    var d := CreateData(req, leadId, now);
    forall c | c in d ensures BindsAt(d, c) {
      if IsTimestamp(c) {
        TimestampType(c);
      } else {
        ScalarBinds(c, d[c]);
      }
    }
  }

  /**
   * A created lead has the request's company and contact fields, source
   * "manual", status "new", score 0, confidence 0.0, and equal creation and
   * update times.
   */
  lemma CreatedRow(req: CreateLeadRequest, leadId: string, now: string)
    ensures CreateData(req, leadId, now).Keys <= LeadColumns
    ensures var r := NewLead(CreateData(req, leadId, now), now);
      && r["lead_id"] == JStr(leadId) && r["company_name"] == JStr(req.companyName)
      && r["company_website"] == OptText(req.companyWebsite) && r["contact_name"] == OptText(req.contactName)
      && r["contact_email"] == OptText(req.contactEmail) && r["contact_title"] == OptText(req.contactTitle)
      && r["source"] == JStr("manual") && r["status"] == JStr("new")
      && r["score"] == JInt(0) && r["confidence"] == JFloat(0.0)
      && r["created_at"] == r["updated_at"] == JTime(now)
  {
    var data := CreateData(req, leadId, now);
    CreateDataColumns(req, leadId, now);
    CreateDataValues(req, leadId, now);
    NewLeadGiven(data, now, "lead_id");
    NewLeadGiven(data, now, "company_name");
    NewLeadGiven(data, now, "company_website");
    NewLeadGiven(data, now, "contact_name");
    NewLeadGiven(data, now, "contact_email");
    NewLeadGiven(data, now, "contact_title");
    NewLeadGiven(data, now, "source");
    NewLeadGiven(data, now, "status");
    NewLeadGiven(data, now, "score");
    NewLeadGiven(data, now, "confidence");
    NewLeadGiven(data, now, "created_at");
    NewLeadGiven(data, now, "updated_at");
  }

  /** Every column the request does not fill is NULL. */
  lemma CreatedRowNulls(req: CreateLeadRequest, leadId: string, now: string)
    ensures CreateData(req, leadId, now).Keys <= LeadColumns
    ensures forall c :: c in LeadColumns && c !in CreateData(req, leadId, now) ==> NewLead(CreateData(req, leadId, now), now)[c] == JNull
  {
    var data := CreateData(req, leadId, now);
    CreateDataColumns(req, leadId, now);
    forall c | c in LeadColumns && c !in data ensures NewLead(data, now)[c] == JNull {
      NewLeadDefault(data, now, c);
      assert "source" in data && "score" in data && "confidence" in data;
      assert "status" in data && "created_at" in data && "updated_at" in data;
    }
  }

  /** The fields of `LeadResponse`: every column but the scraped page and the search results. */
  const ResponseFields: set<string> := LeadColumns - {"website_content", "search_results"}

  /** The type a `LeadResponse` field is declared with. */
  datatype FieldType = StrField | OptStrField | OptBoolField | IntField | FloatField | OptFloatField | OptDictField | OptListField

  function FieldTypeOf(c: string): FieldType {
    if IsTimestamp(c) then OptStrField  // the text `to_dict` makes of the DateTime columns
    else if c == "lead_id" || c == "company_name" || c == "source" || c == "status" then StrField
    else if c == "is_b2b" then OptBoolField
    else if c == "score" then IntField
    else if c == "confidence" then FloatField
    else if c == "processing_time_seconds" then OptFloatField
    else if c == "score_breakdown" || c == "social_profiles" then OptDictField
    else if c in {"personalization_hooks", "pain_points", "buying_signals", "tech_stack", "open_positions", "recent_news"} then OptListField
    else OptStrField
  }

  /**
   * pydantic's lax validation accepts `v` for a field of type `t`: text
   * only for text (None only where optional), a whole number, a bool or
   * an integral float for an int, any number or a bool for a float, None,
   * a bool, 0 or 1 for a bool, and a dict or a list only for its kind.
   */
  predicate Accepts(t: FieldType, v: Json) {
    match t
    case StrField => v.JStr?
    case OptStrField => v.JNull? || v.JStr?
    case OptBoolField => v.JNull? || v.JBool? || (v.JInt? && (v.i == 0 || v.i == 1)) || (v.JFloat? && (v.r == 0.0 || v.r == 1.0))
    case IntField => v.JInt? || v.JBool? || (v.JFloat? && v.r == v.r.Floor as real)
    case FloatField => v.JFloat? || v.JInt? || v.JBool?
    case OptFloatField => v.JNull? || v.JFloat? || v.JInt? || v.JBool?
    case OptDictField => v.JNull? || v.JObj?
    case OptListField => v.JNull? || v.JList?
  }

  /** The value a validated field holds: numbers and bools are converted to the declared type. */
  function Coerce(t: FieldType, v: Json): Json {
    match t
    case OptBoolField => if v.JInt? then JBool(v.i == 1) else if v.JFloat? then JBool(v.r == 1.0) else v
    case IntField => if v.JBool? then JInt(if v.b then 1 else 0) else if v.JFloat? then JInt(v.r.Floor) else v
    case FloatField => if v.JInt? then JFloat(v.i as real) else if v.JBool? then JFloat(if v.b then 1.0 else 0.0) else v
    case OptFloatField => if v.JInt? then JFloat(v.i as real) else if v.JBool? then JFloat(if v.b then 1.0 else 0.0) else v
    case _ => v
  }

  /** A value of the declared type itself, as it is after validation. */
  predicate Canonical(t: FieldType, v: Json) {
    match t
    case StrField => v.JStr?
    case OptStrField => v.JNull? || v.JStr?
    case OptBoolField => v.JNull? || v.JBool?
    case IntField => v.JInt?
    case FloatField => v.JFloat?
    case OptFloatField => v.JNull? || v.JFloat?
    case OptDictField => v.JNull? || v.JObj?
    case OptListField => v.JNull? || v.JList?
  }

  /**
   * An accepted value comes out of validation with the declared type and
   * the same number or truth value; a value already of that type is kept.
   */
  lemma CoerceCanonical(t: FieldType, v: Json)
    requires Accepts(t, v)
    ensures Canonical(t, Coerce(t, v))
    ensures Canonical(t, v) ==> Coerce(t, v) == v
    ensures t == IntField && v.JFloat? ==> Coerce(t, v).i as real == v.r
    ensures (t == FloatField || t == OptFloatField) && v.JInt? ==> Coerce(t, v).r == v.i as real
    ensures t == OptBoolField && !v.JNull? && !v.JBool? ==> Coerce(t, v).b == (v == JInt(1) || v == JFloat(1.0))
  {
  }

  /** Field `c` of `LeadResponse` accepts the dictionary's value; a missing key is None. */
  predicate FieldValid(d: State, c: string) {
    Accepts(FieldTypeOf(c), Val(d, c))
  }

  /** `LeadResponse(**d)` validates: every field accepts its value. Keys that are not fields are ignored. */
  predicate ResponseValid(d: State) {
    forall c {:trigger FieldValid(d, c)} :: c in ResponseFields ==> FieldValid(d, c)
  }

  /** `LeadResponse(**record.to_dict())` once validated: every field, with its converted value. */
  function ResponseOf(r: Record): State
    requires ResponseValid(ToDict(r))
  {
    map k | k in ResponseFields :: Coerce(FieldTypeOf(k), Val(ToDict(r), k))
  }

  /**
   * A validated response holds every field with its declared type, and
   * keeps each value of `to_dict` that already has that type.
   */
  lemma ResponseTyped(r: Record)
    requires ResponseValid(ToDict(r))
    ensures ResponseOf(r).Keys == ResponseFields
    ensures forall k :: k in ResponseOf(r) ==> Canonical(FieldTypeOf(k), ResponseOf(r)[k])
    ensures forall k :: k in ResponseOf(r) && Canonical(FieldTypeOf(k), Val(ToDict(r), k)) ==> ResponseOf(r)[k] == Val(ToDict(r), k)
  {
    ResponseKeys(r);
    forall k | k in ResponseOf(r)
      ensures Canonical(FieldTypeOf(k), ResponseOf(r)[k])
      ensures Canonical(FieldTypeOf(k), Val(ToDict(r), k)) ==> ResponseOf(r)[k] == Val(ToDict(r), k)
    {
      FieldTyped(r, k);
    }
  }

  /** The response has exactly the `LeadResponse` fields. */
  lemma ResponseKeys(r: Record)
    requires ResponseValid(ToDict(r))
    ensures ResponseOf(r).Keys == ResponseFields
  {
  }

  /** One field of the response: its coerced value is canonical, and a canonical value is kept. */
  lemma FieldTyped(r: Record, k: string)
    requires ResponseValid(ToDict(r)) && k in ResponseFields
    ensures k in ResponseOf(r)
    ensures Canonical(FieldTypeOf(k), ResponseOf(r)[k])
    ensures Canonical(FieldTypeOf(k), Val(ToDict(r), k)) ==> ResponseOf(r)[k] == Val(ToDict(r), k)
  {
    assert FieldValid(ToDict(r), k);
    CoerceCanonical(FieldTypeOf(k), Val(ToDict(r), k));
  }

  const ServerErrorDetail := "Internal Server Error"

  /** An exception the route does not catch. */
  const ServerError: Response<State> := HttpError(500, ServerErrorDetail)

  /** `LeadResponse(**record.to_dict())` as a reply: the response, or a 500 when validation raises. */
  function Respond(r: Record): Response<State> {
    if ResponseValid(ToDict(r)) then Body(ResponseOf(r)) else ServerError
  }

  /** A field that is not one of the six required ones is optional, so None validates. */
  lemma NullAccepted(c: string)
    requires c != "lead_id" && c != "company_name" && c != "source" && c != "status" && c != "score" && c != "confidence"
    ensures Accepts(FieldTypeOf(c), JNull)
  {
  }

  /** A created lead always validates: its columns hold text, numbers, None and its creation time. */
  lemma CreatedResponseValid(req: CreateLeadRequest, leadId: string, now: string)
    ensures CreateData(req, leadId, now).Keys <= LeadColumns
    ensures ResponseValid(ToDict(NewLead(CreateData(req, leadId, now), now)))
  {
    CreateDataColumns(req, leadId, now);
    var d := ToDict(NewLead(CreateData(req, leadId, now), now));
    forall c | c in ResponseFields ensures FieldValid(d, c) {
      CreatedFieldValid(req, leadId, now, c);
    }
  }

  /** `to_dict` of a created lead gives its creation time as text. */
  lemma CreatedDictTime(req: CreateLeadRequest, leadId: string, now: string, c: string)
    requires IsTimestamp(c)
    ensures Val(ToDict(NewLead(CreateData(req, leadId, now), now)), c) == JStr(now)
  {
    CreatedRow(req, leadId, now);
  }

  /** `to_dict` of a created lead gives the request's values. */
  lemma CreatedDictGiven(req: CreateLeadRequest, leadId: string, now: string, c: string)
    requires !IsTimestamp(c) && c in CreateData(req, leadId, now)
    ensures Val(ToDict(NewLead(CreateData(req, leadId, now), now)), c) == CreateData(req, leadId, now)[c]
  {
    var data := CreateData(req, leadId, now);
    CreateDataColumns(req, leadId, now);
    NewLeadGiven(data, now, c);
  }

  /** `to_dict` of a created lead gives None for every column the request does not fill. */
  lemma CreatedDictNull(req: CreateLeadRequest, leadId: string, now: string, c: string)
    requires c in LeadColumns && c !in CreateData(req, leadId, now)
    ensures Val(ToDict(NewLead(CreateData(req, leadId, now), now)), c) == JNull
  {
    CreatedRowNulls(req, leadId, now);
    assert !IsTimestamp(c) by {
      assert "created_at" in CreateData(req, leadId, now) && "updated_at" in CreateData(req, leadId, now);
    }
  }

  /** The request's own values have the types `LeadResponse` declares for them. */
  lemma CreateDataAccepted(req: CreateLeadRequest, leadId: string, now: string, c: string)
    requires !IsTimestamp(c) && c in CreateData(req, leadId, now)
    ensures Accepts(FieldTypeOf(c), CreateData(req, leadId, now)[c])
  {
    var data := CreateData(req, leadId, now);
    if c == "score" {
    } else if c == "confidence" {
    } else if c == "lead_id" || c == "company_name" || c == "source" || c == "status" {
    } else if c == "company_website" {
    } else if c == "contact_name" {
    } else if c == "contact_email" {
    } else {
      assert c == "contact_title";
    }
  }

  /** One field of a created lead validates. */
  lemma CreatedFieldValid(req: CreateLeadRequest, leadId: string, now: string, c: string)
    requires c in ResponseFields
    ensures CreateData(req, leadId, now).Keys <= LeadColumns
    ensures FieldValid(ToDict(NewLead(CreateData(req, leadId, now), now)), c)
  {
    CreateDataColumns(req, leadId, now);
    if IsTimestamp(c) {
      CreatedTimeValid(req, leadId, now, c);
    } else if c !in CreateData(req, leadId, now) {
      CreatedNullValid(req, leadId, now, c);
    } else {
      CreatedGivenValid(req, leadId, now, c);
    }
  }

  /** A new row's timestamps pass as optional text. */
  lemma CreatedTimeValid(req: CreateLeadRequest, leadId: string, now: string, c: string)
    requires IsTimestamp(c)
    ensures CreateData(req, leadId, now).Keys <= LeadColumns
    ensures FieldValid(ToDict(NewLead(CreateData(req, leadId, now), now)), c)
  {
    CreateDataColumns(req, leadId, now);
    CreatedDictTime(req, leadId, now, c);
  }

  /** A field the request leaves unset reads back as its default, which the field accepts. */
  lemma CreatedNullValid(req: CreateLeadRequest, leadId: string, now: string, c: string)
    requires c in ResponseFields && !IsTimestamp(c) && c !in CreateData(req, leadId, now)
    ensures CreateData(req, leadId, now).Keys <= LeadColumns
    ensures FieldValid(ToDict(NewLead(CreateData(req, leadId, now), now)), c)
  {
    CreateDataColumns(req, leadId, now);
    CreatedDictNull(req, leadId, now, c);
    NullAccepted(c);
  }

  /** A field the request sets reads back as the value it gave. */
  lemma CreatedGivenValid(req: CreateLeadRequest, leadId: string, now: string, c: string)
    requires !IsTimestamp(c) && c in CreateData(req, leadId, now)
    ensures CreateData(req, leadId, now).Keys <= LeadColumns
    ensures FieldValid(ToDict(NewLead(CreateData(req, leadId, now), now)), c)
  {
    CreateDataColumns(req, leadId, now);
    CreatedDictGiven(req, leadId, now, c);
    CreateDataAccepted(req, leadId, now, c);
  }

  /** `create_lead`: the new row as a LeadResponse; a uuid that is already taken makes the commit fail. */
  method CreateLead(db: LeadDatabase, req: CreateLeadRequest, leadId: string, now: string) returns (r: Response<State>)
    requires db.Valid()
    modifies db
    ensures db.Valid()
    ensures (exists i :: 0 <= i < |old(db.leads)| && IdOf(old(db.leads)[i]) == JStr(leadId)) ==>
      r == ServerError && db.leads == old(db.leads)
    ensures (forall i :: 0 <= i < |old(db.leads)| ==> IdOf(old(db.leads)[i]) != JStr(leadId)) ==>
      var row := NewLead(CreateData(req, leadId, now), now);
      ResponseValid(ToDict(row)) && r == Body(ResponseOf(row)) && db.leads == old(db.leads) + [row]
    ensures db.usage == old(db.usage) && db.emailLogs == old(db.emailLogs)
  {
    var data := CreateData(req, leadId, now);
    CreateInsertsUnlessTaken(db.leads, req, leadId, now);
    var record := db.CreateLead(data, now);
    if record.Err? {
      return ServerError;
    }
    CreatedResponseValid(req, leadId, now);
    r := Respond(record.value);
  }

  /** The insert of `create_lead` fails exactly when the uuid is taken. */
  lemma CreateInsertsUnlessTaken(rows: seq<Record>, req: CreateLeadRequest, leadId: string, now: string)
    ensures ValuesShaped(CreateData(req, leadId, now))
    ensures InsertLead(rows, CreateData(req, leadId, now), now).Err? <==>
      exists i :: 0 <= i < |rows| && IdOf(rows[i]) == JStr(leadId)
  {
    var data := CreateData(req, leadId, now);
    CreateDataColumns(req, leadId, now);
    CreateDataValues(req, leadId, now);
    CreateDataBinds(req, leadId, now);
    InsertLeadErrors(rows, data, now);
  }

  /** Every listed row validates. */
  predicate AllValid(records: seq<Record>) {
    forall k :: 0 <= k < |records| ==> ResponseValid(ToDict(records[k]))
  }

  /** The first `n` rows validate and `out` holds their responses in order. */
  predicate RespondedTo(records: seq<Record>, n: nat, out: seq<State>)
    requires n <= |records|
  {
    && |out| == n
    && (forall k :: 0 <= k < n ==> ResponseValid(ToDict(records[k])) && out[k] == ResponseOf(records[k]))
  }

  /** Responding to one more valid row. */
  lemma RespondStep(records: seq<Record>, n: nat, out: seq<State>)
    requires n < |records| && RespondedTo(records, n, out) && ResponseValid(ToDict(records[n]))
    ensures RespondedTo(records, n + 1, out + [ResponseOf(records[n])])
  {
  }

  /** Every row validates exactly when the responses reach the end. */
  lemma RespondedAll(records: seq<Record>, out: seq<State>)
    requires RespondedTo(records, |records|, out)
    ensures AllValid(records)
  {
  }

  /** A row that fails validation makes the list fail. */
  lemma RespondFails(records: seq<Record>, n: nat)
    requires n < |records| && !ResponseValid(ToDict(records[n]))
    ensures !AllValid(records)
  {
  }

  /**
   * The list comprehension of `list_leads`: the rows' responses in order,
   * or a 500 at the first row that fails validation.
   */
  method Responses(records: seq<Record>) returns (r: Response<seq<State>>)
    ensures r.HttpError? <==> !AllValid(records)
    ensures r.HttpError? ==> r == HttpError(500, ServerErrorDetail)
    ensures r.Body? ==> |r.value| == |records| && forall k :: 0 <= k < |records| ==> r.value[k] == ResponseOf(records[k])
  {
    var out := [];
    for i := 0 to |records|
      invariant RespondedTo(records, i, out)
    {
      if !ResponseValid(ToDict(records[i])) {
        RespondFails(records, i);
        return HttpError(500, ServerErrorDetail);
      }
      RespondStep(records, i, out);
      out := out + [ResponseOf(records[i])];
    }
    RespondedAll(records, out);
    r := Body(out);
  }

  /**
   * `list_leads`, each row as a LeadResponse: a 500 when some listed row
   * fails validation, otherwise every listed row's response in order.
   */
  method ListLeads(db: LeadDatabase, status: Option<string>, limit: int, offset: int) returns (r: Response<seq<State>>)
    ensures var listed := LeadTable.ListLeads(db.leads, status, limit, offset);
      && (r.HttpError? <==> !AllValid(listed))
      && (r.HttpError? ==> r == HttpError(500, ServerErrorDetail))
      && (r.Body? ==> |r.value| == |listed| && forall k :: 0 <= k < |listed| ==> r.value[k] == ResponseOf(listed[k]))
    ensures r.Body? ==> |r.value| <= CountLeads(db.leads, status) && (0 <= limit ==> |r.value| <= limit)
    ensures r.Body? && limit < 0 && offset <= 0 ==> |r.value| == CountLeads(db.leads, status)
  {
    var records := db.ListLeads(status, limit, offset);
    ListLeadsEffect(db.leads, status, limit, offset);
    r := Responses(records);
  }

  /** `get_lead`: 404 exactly when no row has the id; otherwise the row's response, or a 500 when it fails validation. */
  method GetLead(db: LeadDatabase, leadId: string) returns (r: Response<State>)
    ensures r == NotFound <==> forall i :: 0 <= i < |db.leads| ==> IdOf(db.leads[i]) != JStr(leadId)
    ensures Find(db.leads, leadId).Some? ==> r == Respond(Find(db.leads, leadId).value)
  {
    var record := db.GetLead(leadId);
    if record.None? {
      return NotFound;
    }
    r := Respond(record.value);
  }

  /** `delete_lead`: 404 exactly when no row had the id. */
  method DeleteLead(db: LeadDatabase, leadId: string) returns (r: Response<State>)
    requires db.Valid()
    modifies db
    ensures db.Valid()
    ensures db.leads == DeleteRows(old(db.leads), leadId)
    ensures r == NotFound <==> forall i :: 0 <= i < |old(db.leads)| ==> IdOf(old(db.leads)[i]) != JStr(leadId)
    ensures r != NotFound ==> r == Body(Message("Lead deleted", leadId))
    ensures db.usage == old(db.usage) && db.emailLogs == old(db.emailLogs)
  {
    var deleted := db.DeleteLead(leadId);
    if !deleted {
      return NotFound;
    }
    r := Body(Message("Lead deleted", leadId));
  }

  /** Searches allowed per user and day on the free tier. */
  const SearchLimit := 5

  const SearchLimitDetail := "Daily search limit reached (5/day on Free tier). Upgrade to Pro for 50 searches/day."

  /** The sender name the pipeline signs with when the request names none. */
  const DefaultSender := "NexusAI Team"

  /**
   * The quota gate of `process_lead`: None when the user has used up today's
   * searches (429), else the counters with one more search.
   */
  function SearchGate(usage: map<(string, string), UserUsage>, userId: string, today: string): Option<map<(string, string), UserUsage>> {
    var u := UsageOf(usage, userId, today);
    if u.searchCount >= SearchLimit then None else Some(usage[(userId, today) := u.(searchCount := u.searchCount + 1)])
  }

  /** What the pipeline starts on: the lead's dictionary with the name to sign e-mails with. */
  function PipelineInput(lead: Record, sender: string): State {
    ToDict(lead)["sender_name" := JStr(sender)]
  }

  /** The reply of a process call that started the pipeline. */
  function Started(leadId: string): State {
    map["message" := JStr("Pipeline started"), "lead_id" := JStr(leadId), "status" := JStr("researching")]
  }

  const Researching: State := map["status" := JStr("researching")]

  /**
   * `process_lead`: a missing lead is a 404 before the quota is looked at;
   * a used-up quota is a 429 that changes nothing; otherwise the search is
   * counted, the lead goes to "researching", and the lead's dictionary with
   * the sender name is what the pipeline is started on.
   */
  method ProcessLead(db: LeadDatabase, leadId: string, userHeader: Option<string>, senderHeader: Option<string>,
                     today: string, now: string)
    returns (r: Response<State>, pipelineInput: Option<State>)
    requires db.Valid()
    modifies db
    ensures db.Valid()
    ensures db.emailLogs == old(db.emailLogs)
    ensures Find(old(db.leads), leadId).None? ==>
      r == NotFound && pipelineInput.None? && db.leads == old(db.leads) && db.usage == old(db.usage)
    ensures Find(old(db.leads), leadId).Some? && SearchGate(old(db.usage), Header(userHeader, DefaultUser), today).None? ==>
      r == HttpError(429, SearchLimitDetail) && pipelineInput.None? && db.leads == old(db.leads) && db.usage == old(db.usage)
    ensures Find(old(db.leads), leadId).Some? && SearchGate(old(db.usage), Header(userHeader, DefaultUser), today).Some? ==>
      && r == Body(Started(leadId))
      && db.usage == SearchGate(old(db.usage), Header(userHeader, DefaultUser), today).value
      && db.leads == UpdateRows(old(db.leads), leadId, Researching, now)
      && pipelineInput == Some(PipelineInput(Find(old(db.leads), leadId).value, Header(senderHeader, DefaultSender)))
  {
    var record := db.GetLead(leadId);
    if record.None? {
      return NotFound, None;
    }
    var admitted := ChargeSearch(db, Header(userHeader, DefaultUser), today);
    if !admitted {
      return HttpError(429, SearchLimitDetail), None;
    }
    var leadData := ToDict(record.value);
    leadData := leadData["sender_name" := JStr(Header(senderHeader, DefaultSender))];
    MarkResearching(db, leadId, now);
    r := Body(Started(leadId));
    pipelineInput := Some(leadData);
  }

  /**
   * The quota check and count of `process_lead`: `get_daily_usage`, then
   * either the 429 or `increment_search_count`. A refused call leaves the
   * counters as they were: a missing row is created with count 0, which
   * the gate lets through.
   */
  method ChargeSearch(db: LeadDatabase, userId: string, today: string) returns (admitted: bool)
    requires db.Valid()
    modifies db
    ensures db.Valid()
    ensures admitted <==> SearchGate(old(db.usage), userId, today).Some?
    ensures db.usage == if admitted then SearchGate(old(db.usage), userId, today).value else old(db.usage)
    ensures db.leads == old(db.leads) && db.emailLogs == old(db.emailLogs)
  {
    var usage := db.GetDailyUsage(userId, today);
    if usage.searchCount >= SearchLimit {
      assert (userId, today) in old(db.usage);
      assert db.usage == old(db.usage);
      return false;
    }
    ghost var counted := usage.(searchCount := usage.searchCount + 1);
    ghost var mid := db.usage;
    assert UsageOf(mid, userId, today) == usage;
    var _ := db.IncrementSearchCount(userId, today);
    assert db.usage == mid[(userId, today) := counted];
    assert mid[(userId, today) := counted] == old(db.usage)[(userId, today) := counted];
    admitted := true;
  }

  /** `update_lead(session, lead_id, {"status": "researching"})`, which always commits. */
  method MarkResearching(db: LeadDatabase, leadId: string, now: string)
    requires db.Valid()
    modifies db
    ensures db.Valid()
    ensures db.leads == UpdateRows(old(db.leads), leadId, Researching, now)
    ensures db.usage == old(db.usage) && db.emailLogs == old(db.emailLogs)
  {
    ResearchingSucceeds(db.leads, leadId, now);
    var _ := db.UpdateLead(leadId, Researching, now);
  }

  /** Setting the status to "researching" always commits. */
  lemma ResearchingSucceeds(rows: seq<Record>, leadId: string, now: string)
    requires UniqueIds(rows) && (forall i :: 0 <= i < |rows| ==> LeadShaped(rows[i]))
    ensures ValuesShaped(Researching)
    ensures UpdateAll(rows, leadId, Researching, now) == Ok(UpdateRows(rows, leadId, Researching, now))
  {
    assert "status" in LeadColumns;
    assert BindsAt(Researching, "status") by { ScalarBinds("status", JStr("researching")); }
    UpdateAllSucceeds(rows, leadId, Researching, now);
  }

  /**
   * The process calls that got past the 404 check, run in order from
   * `usage`, each as (user, day); the result counts those for `key` that
   * the quota let through.
   */
  function AdmittedFor(usage: map<(string, string), UserUsage>, calls: seq<(string, string)>, key: (string, string)): nat
    decreases |calls|
  {
    if calls == [] then 0
    else
      var g := SearchGate(usage, calls[0].0, calls[0].1);
      (if g.Some? && calls[0] == key then 1 else 0) + AdmittedFor(if g.Some? then g.value else usage, calls[1..], key)
  }

  function Min(a: int, b: int): int { if a <= b then a else b }
  function Max(a: int, b: int): int { if a >= b then a else b }

  /**
   * Of the calls a user makes on one day, exactly as many succeed as the
   * quota has left: the first `5 - count` of them, where `count` is the
   * day's search count before the first call. Calls by other users or on
   * other days do not count against it. So from a fresh day at most five
   * succeed.
   */
  lemma {:induction false} QuotaBound(usage: map<(string, string), UserUsage>, calls: seq<(string, string)>, key: (string, string))
    ensures AdmittedFor(usage, calls, key) == Min(multiset(calls)[key], Max(0, SearchLimit - UsageOf(usage, key.0, key.1).searchCount))
    ensures UsageOf(usage, key.0, key.1).searchCount >= 0 ==> AdmittedFor(usage, calls, key) <= SearchLimit
    decreases |calls|
  {
    if calls != [] {
      var g := SearchGate(usage, calls[0].0, calls[0].1);
      var next := if g.Some? then g.value else usage;
      QuotaBound(next, calls[1..], key);
      assert calls == [calls[0]] + calls[1..];
      assert multiset(calls)[key] == (if calls[0] == key then 1 else 0) + multiset(calls[1..])[key];
      if calls[0] != key {
        assert UsageOf(next, key.0, key.1) == UsageOf(usage, key.0, key.1);
      }
    }
  }

  /** How a background pipeline run ended: the final state and the seconds it took, or the text of the exception it raised. */
  datatype PipelineOutcome = Finished(result: State, elapsed: real) | Crashed(error: string)

  /** The keys of a finished run the write-back relies on have their declared types. */
  predicate ResultTyped(result: State) {
    && Annotated(result, "lead_id") && Annotated(result, "company_name") && Annotated(result, "status")
    && Annotated(result, "score") && Annotated(result, "confidence")
  }

  /** The run's state with its timing set, as the write-back sees it. */
  function Timed(result: State, elapsed: real): State {
    result["processing_time_seconds" := JFloat(elapsed)]
  }

  /** `{k: v for k, v in result.items() if k in valid_columns and k not in ["created_at", "updated_at"]}` */
  function Columns(result: State): State {
    map k | k in result && k in LeadColumns && k != "created_at" && k != "updated_at" :: result[k]
  }

  /** The failure write of the outer `except`. */
  function Failed(message: string): State {
    map["status" := JStr("failed"), "error_message" := JStr(message)]
  }

  /**
   * The columns a run writes back, or the text of the exception that sends
   * it to the failure write: the run's own exception, or, for a result in
   * human review, the one `get_human_review_reason` raises, whose text is
   * `reasonError`.
   */
  function PipelineUpdates(outcome: PipelineOutcome, reasonError: string): Result<State, string>
    requires outcome.Finished? ==> ResultTyped(outcome.result)
  {
    match outcome
    case Crashed(e) => Err(e)
    case Finished(result, elapsed) =>
      var timed := Timed(result, elapsed);
      if Val(timed, "status") != JStr("human_review") then Ok(Columns(timed))
      else
        assert Annotated(timed, "score") && Annotated(timed, "confidence");
        match Routing.HumanReviewReason(timed)
        case None => Err(reasonError)
        case Some(reason) => Ok(Columns(timed)["human_review_reason" := JStr(reason)])
  }

  /**
   * The rows after the background run: the run's columns when they commit,
   * otherwise the failure write with the exception's text, on the rows as
   * they were (a failed commit writes nothing).
   */
  function WriteBackRows(rows: seq<Record>, leadId: string, outcome: PipelineOutcome, reasonError: string,
                         errorText: DbError -> string, now: string): seq<Record>
    requires outcome.Finished? ==> ResultTyped(outcome.result)
  {
    match PipelineUpdates(outcome, reasonError)
    case Err(message) => UpdateRows(rows, leadId, Failed(message), now)
    case Ok(updates) =>
      match UpdateAll(rows, leadId, updates, now)
      case Ok(updated) => updated
      case Err(e) => UpdateRows(rows, leadId, Failed(errorText(e)), now)
  }

  /**
   * The written-back columns are exactly the run's lead columns other than
   * the two timestamps, with its timing, plus the review reason when (and,
   * beyond what the run itself carried, only when) the run ended in human
   * review; the write fails only for a crash or a reason that raises.
   */
  lemma PipelineUpdatesEffect(outcome: PipelineOutcome, reasonError: string)
    requires outcome.Finished? ==> ResultTyped(outcome.result)
    ensures outcome.Crashed? ==> PipelineUpdates(outcome, reasonError) == Err(outcome.error)
    ensures outcome.Finished? ==>
      var timed := Timed(outcome.result, outcome.elapsed);
      var review := Val(timed, "status") == JStr("human_review");
      && (PipelineUpdates(outcome, reasonError).Err? <==> review && Routing.HumanReviewReason(timed).None?)
      && (PipelineUpdates(outcome, reasonError).Ok? ==>
        var u := PipelineUpdates(outcome, reasonError).value;
        && u.Keys <= LeadColumns && "created_at" !in u && "updated_at" !in u
        && u["processing_time_seconds"] == JFloat(outcome.elapsed)
        && (forall k :: k in timed && k in LeadColumns && k != "created_at" && k != "updated_at" ==> k in u)
        && (forall k :: k in u && k != "human_review_reason" ==> k in timed && u[k] == timed[k])
        && (review ==> u["human_review_reason"] == JStr(Routing.HumanReviewReason(timed).value))
        && (!review ==> u == Columns(timed)))
  {
    if outcome.Finished? {
      var timed := Timed(outcome.result, outcome.elapsed);
      ColumnsEffect(timed);
      assert "processing_time_seconds" in LeadColumns;
      assert "human_review_reason" in LeadColumns;
      if Val(timed, "status") == JStr("human_review") {
        assert Annotated(timed, "score") && Annotated(timed, "confidence");
        match Routing.HumanReviewReason(timed)
        case None =>
        case Some(reason) =>
          assert PipelineUpdates(outcome, reasonError) == Ok(Columns(timed)["human_review_reason" := JStr(reason)]);
      } else {
        assert PipelineUpdates(outcome, reasonError) == Ok(Columns(timed));
      }
    }
  }

  /** The kept columns are the state's lead columns other than the two timestamps, with their values. */
  lemma ColumnsEffect(s: State)
    ensures Columns(s).Keys <= LeadColumns && "created_at" !in Columns(s) && "updated_at" !in Columns(s)
    ensures forall k :: k in s && k in LeadColumns && k != "created_at" && k != "updated_at" ==> k in Columns(s)
    ensures forall k :: k in Columns(s) ==> k in s && Columns(s)[k] == s[k]
  {
  }

  /** A finished run that keeps the lead's id and company name, and whose values bind to their columns, always commits. */
  lemma WriteBackCommits(rows: seq<Record>, leadId: string, outcome: PipelineOutcome, reasonError: string, now: string)
    requires UniqueIds(rows) && (forall i :: 0 <= i < |rows| ==> LeadShaped(rows[i]))
    requires outcome.Finished? && ResultTyped(outcome.result)
    requires "lead_id" in outcome.result ==> outcome.result["lead_id"] == JStr(leadId)
    requires PipelineUpdates(outcome, reasonError).Ok? && RowBinds(PipelineUpdates(outcome, reasonError).value)
    ensures var u := PipelineUpdates(outcome, reasonError).value;
      UpdateAll(rows, leadId, u, now) == Ok(UpdateRows(rows, leadId, u, now))
  {
    var u := PipelineUpdates(outcome, reasonError).value;
    PipelineUpdatesEffect(outcome, reasonError);
    var timed := Timed(outcome.result, outcome.elapsed);
    UpdatesShaped(timed, u);
    UpdateAllSucceeds(rows, leadId, u, now);
  }

  /**
   * A finished run with a value that does not bind to its column (a
   * non-bool `is_b2b`, a dict in a text column, a `datetime` inside a JSON
   * column) fails its write: the lead instead gets the failure write with
   * the bind error's text.
   */
  lemma WriteBackRefused(rows: seq<Record>, leadId: string, outcome: PipelineOutcome, reasonError: string,
                         errorText: DbError -> string, now: string)
    requires outcome.Finished? && ResultTyped(outcome.result)
    requires PipelineUpdates(outcome, reasonError).Ok? && !RowBinds(PipelineUpdates(outcome, reasonError).value)
    ensures WriteBackRows(rows, leadId, outcome, reasonError, errorText, now) == UpdateRows(rows, leadId, Failed(errorText(BindError)), now)
  {
    var u := PipelineUpdates(outcome, reasonError).value;
    PipelineUpdatesEffect(outcome, reasonError);
    var c :| c in u && !BindsAt(u, c);
    assert c != "updated_at";
    UpdateAllBindError(rows, leadId, u, now);
  }

  /** Values copied from a typed run state have the column types. */
  lemma UpdatesShaped(timed: State, u: State)
    requires Annotated(timed, "lead_id") && Annotated(timed, "company_name") && Annotated(timed, "status") && Annotated(timed, "score")
    requires forall k :: k in u && k != "human_review_reason" ==> k in timed && u[k] == timed[k]
    requires "created_at" !in u && "updated_at" !in u
    ensures ValuesShaped(u)
    ensures "company_name" in u ==> u["company_name"].JStr?
  {
    assert Schema("lead_id") == Some(TStr) && Schema("company_name") == Some(TStr);
    assert Schema("status") == Some(TStr) && Schema("score") == Some(TInt);
  }

  /** The failure write always commits. */
  lemma FailedSucceeds(rows: seq<Record>, leadId: string, message: string, now: string)
    requires UniqueIds(rows) && (forall i :: 0 <= i < |rows| ==> LeadShaped(rows[i]))
    ensures ValuesShaped(Failed(message))
    ensures UpdateAll(rows, leadId, Failed(message), now) == Ok(UpdateRows(rows, leadId, Failed(message), now))
  {
    assert "status" in LeadColumns && "error_message" in LeadColumns;
    assert BindsAt(Failed(message), "status") by { ScalarBinds("status", JStr("failed")); }
    assert BindsAt(Failed(message), "error_message") by { ScalarBinds("error_message", JStr(message)); }
    UpdateAllSucceeds(rows, leadId, Failed(message), now);
  }

  /** A lead whose run failed has status "failed" and the exception's text, and keeps its other columns. */
  lemma FailedRow(r: Record, message: string, now: string)
    requires LeadShaped(r)
    ensures var u := UpdatedRow(r, Failed(message), now);
      && u["status"] == JStr("failed") && u["error_message"] == JStr(message)
      && u["score"] == r["score"] && u["created_at"] == r["created_at"] && u["updated_at"] == JTime(now)
  {
    assert "score" in LeadColumns && "created_at" in LeadColumns;
    UpdatedWrites(r, Failed(message), now, "status");
    UpdatedWrites(r, Failed(message), now, "error_message");
    UpdatedKeeps(r, Failed(message), now, "score");
    UpdatedKeeps(r, Failed(message), now, "created_at");
  }

  /**
   * The write-back of `run_pipeline`: the run's columns, with the review
   * reason added when the run ended in human review, go to the lead in one
   * update; any exception on the way turns into the failure write, whose
   * own errors are swallowed. `reasonError` and `errorText` are the texts
   * `str(e)` gives for the exceptions the model does not spell out.
   */
  method WriteBack(db: LeadDatabase, leadId: string, outcome: PipelineOutcome, reasonError: string,
                   errorText: DbError -> string, now: string)
    requires db.Valid()
    requires outcome.Finished? ==> ResultTyped(outcome.result)
    modifies db
    ensures db.Valid()
    ensures db.leads == WriteBackRows(old(db.leads), leadId, outcome, reasonError, errorText, now)
    ensures db.usage == old(db.usage) && db.emailLogs == old(db.emailLogs)
  {
    var failure: Option<string> := None;
    match outcome {
      case Crashed(e) =>
        failure := Some(e);
      case Finished(result, elapsed) =>
        var timed := result["processing_time_seconds" := JFloat(elapsed)];
        var filtered := Columns(timed);
        if Val(timed, "status") == JStr("human_review") {
          assert Annotated(timed, "score") && Annotated(timed, "confidence");
          var reason := Routing.HumanReviewReason(timed);
          if reason.None? {
            failure := Some(reasonError);
          } else {
            filtered := filtered["human_review_reason" := JStr(reason.value)];
          }
        }
        if failure.None? {
          assert PipelineUpdates(outcome, reasonError) == Ok(filtered);
          PipelineUpdatesEffect(outcome, reasonError);
          UpdatesShaped(timed, filtered);
          var written := db.UpdateLead(leadId, filtered, now);
          if written.Err? {
            failure := Some(errorText(written.error));
          }
        }
    }
    if failure.Some? {
      FailedSucceeds(db.leads, leadId, failure.value, now);
      var _ := db.UpdateLead(leadId, Failed(failure.value), now);
    }
  }

  /** The page `batch_process` takes: `list_leads(status="new")` with the default limit of 50. */
  const BatchLimit: nat := 50

  /** The rows after every lead whose id is in `ids` has been set to "researching" at `now`. */
  function Researched(rows: seq<Record>, ids: seq<string>, now: string): (r: seq<Record>)
    ensures |r| == |rows|
  {
    seq(|rows|, j requires 0 <= j < |rows| =>
      if IdOf(rows[j]).JStr? && IdOf(rows[j]).s in ids then UpdatedRow(rows[j], Researching, now) else rows[j])
  }

  /** Updating a row twice with the same values at the same time is updating it once. */
  lemma UpdatedTwice(r: Record, data: State, now: string)
    ensures UpdatedRow(UpdatedRow(r, data, now), data, now) == UpdatedRow(r, data, now)
  {
  }

  /** Setting one more lead to "researching" extends the set of researched ids. */
  lemma ResearchedStep(rows: seq<Record>, ids: seq<string>, id: string, now: string)
    ensures UpdateRows(Researched(rows, ids, now), id, Researching, now) == Researched(rows, ids + [id], now)
  {
    var before := Researched(rows, ids, now);
    var after := UpdateRows(before, id, Researching, now);
    var want := Researched(rows, ids + [id], now);
    forall j | 0 <= j < |rows| ensures after[j] == want[j] {
      assert IdOf(before[j]) == IdOf(rows[j]);
      if IdOf(rows[j]).JStr? && IdOf(rows[j]).s in ids {
        UpdatedTwice(rows[j], Researching, now);
      }
    }
  }

  /** A listed lead is a stored lead. */
  lemma ListedIsStored(rows: seq<Record>, status: Option<string>, limit: int, offset: int, i: nat)
    requires i < |LeadTable.ListLeads(rows, status, limit, offset)|
    ensures LeadTable.ListLeads(rows, status, limit, offset)[i] in rows
  {
    var f := StatusFilter(rows, status);
    var x := LeadTable.ListLeads(rows, status, limit, offset)[i];
    assert x in f by {
      ListLeadsEffect(rows, status, limit, offset);
      assert x in multiset(f);
    }
    assert PyLists.IsSubseq(f, rows) by {
      StatusFilterEffect(rows, status);
    }
    PyLists.SubseqMember(f, rows, x);
  }

  /** The reply of `batch_process`. */
  function BatchReply(started: seq<string>): State {
    map["message" := JStr("Started processing " + PyStrings.IntStr(|started|) + " leads"),
        "lead_ids" := JList(seq(|started|, k requires 0 <= k < |started| => JStr(started[k])))]
  }

  /**
   * `batch_process`: the first 50 "new" leads, newest first, go to
   * "researching" and are handed to the pipeline with the sender name;
   * their ids come back in that order. No quota is checked or counted.
   */
  method BatchProcess(db: LeadDatabase, senderHeader: Option<string>, now: string)
    returns (r: State, started: seq<string>, pipelineInputs: seq<State>)
    requires db.Valid()
    modifies db
    ensures db.Valid()
    ensures var batch := LeadTable.ListLeads(old(db.leads), Some("new"), BatchLimit, 0);
      && |started| == |batch| == |pipelineInputs|
      && (forall k :: 0 <= k < |batch| ==> IdOf(batch[k]) == JStr(started[k]))
      && (forall k :: 0 <= k < |batch| ==>
            pipelineInputs[k] == PipelineInput(batch[k], Header(senderHeader, DefaultSender)))
    ensures |started| == Min(CountLeads(old(db.leads), Some("new")), BatchLimit)
    ensures db.leads == Researched(old(db.leads), started, now)
    ensures r == BatchReply(started)
    ensures db.usage == old(db.usage) && db.emailLogs == old(db.emailLogs)
  {
    var leads := db.ListLeads(Some("new"), BatchLimit, 0);
    forall k | 0 <= k < |leads| ensures leads[k] in db.leads {
      ListedIsStored(db.leads, Some("new"), BatchLimit, 0, k);
    }
    ListLeadsEffect(db.leads, Some("new"), BatchLimit, 0);
    started, pipelineInputs := StartAll(db, leads, Header(senderHeader, DefaultSender), now);
    r := BatchReply(started);
  }

  /** The loop of `batch_process` over the listed leads, in order. */
  method StartAll(db: LeadDatabase, leads: seq<Record>, sender: string, now: string)
    returns (started: seq<string>, pipelineInputs: seq<State>)
    requires db.Valid() && forall k :: 0 <= k < |leads| ==> leads[k] in db.leads
    modifies db
    ensures db.Valid()
    ensures |started| == |leads| == |pipelineInputs|
    ensures forall k :: 0 <= k < |leads| ==> IdOf(leads[k]) == JStr(started[k])
    ensures forall k :: 0 <= k < |leads| ==> pipelineInputs[k] == PipelineInput(leads[k], sender)
    ensures db.leads == Researched(old(db.leads), started, now)
    ensures db.usage == old(db.usage) && db.emailLogs == old(db.emailLogs)
  {
    ghost var rows0 := db.leads;
    started := [];
    pipelineInputs := [];
    var i := 0;
    assert db.leads == Researched(rows0, [], now);
    while i < |leads|
      invariant 0 <= i <= |leads| && |started| == i && |pipelineInputs| == i
      invariant db.Valid()
      invariant forall k :: 0 <= k < i ==> IdOf(leads[k]) == JStr(started[k])
      invariant forall k :: 0 <= k < i ==> pipelineInputs[k] == PipelineInput(leads[k], sender)
      invariant db.leads == Researched(rows0, started, now)
      invariant db.usage == old(db.usage) && db.emailLogs == old(db.emailLogs)
    {
      started, pipelineInputs := StartNext(db, rows0, leads, i, started, pipelineInputs, sender, now);
      i := i + 1;
    }
  }

  /** One turn of the `batch_process` loop, as the loop's lists record it. */
  method StartNext(db: LeadDatabase, ghost rows0: seq<Record>, leads: seq<Record>, i: nat,
                   started: seq<string>, pipelineInputs: seq<State>, sender: string, now: string)
    returns (started': seq<string>, pipelineInputs': seq<State>)
    requires i < |leads| && |started| == i && |pipelineInputs| == i
    requires db.Valid() && db.leads == Researched(rows0, started, now)
    requires leads[i] in rows0 && forall j :: 0 <= j < |rows0| ==> LeadShaped(rows0[j])
    requires forall k :: 0 <= k < i ==> IdOf(leads[k]) == JStr(started[k])
    requires forall k :: 0 <= k < i ==> pipelineInputs[k] == PipelineInput(leads[k], sender)
    modifies db
    ensures db.Valid() && db.leads == Researched(rows0, started', now)
    ensures |started'| == i + 1 && |pipelineInputs'| == i + 1
    ensures forall k :: 0 <= k < i + 1 ==> IdOf(leads[k]) == JStr(started'[k])
    ensures forall k :: 0 <= k < i + 1 ==> pipelineInputs'[k] == PipelineInput(leads[k], sender)
    ensures db.usage == old(db.usage) && db.emailLogs == old(db.emailLogs)
  {
    var leadData, id := StartLead(db, rows0, started, leads[i], sender, now);
    pipelineInputs' := pipelineInputs + [leadData];
    started' := started + [id];
    forall k | 0 <= k < i + 1
      ensures IdOf(leads[k]) == JStr(started'[k]) && pipelineInputs'[k] == PipelineInput(leads[k], sender)
    {
      if k < i {
        assert started'[k] == started[k] && pipelineInputs'[k] == pipelineInputs[k];
      }
    }
  }

  /**
   * One turn of the `batch_process` loop: the lead's dictionary with the
   * sender name is what its run starts on, and the lead goes to
   * "researching".
   */
  method StartLead(db: LeadDatabase, ghost rows0: seq<Record>, ghost started: seq<string>, lead: Record, sender: string, now: string)
    returns (leadData: State, id: string)
    requires db.Valid() && db.leads == Researched(rows0, started, now)
    requires lead in rows0 && forall j :: 0 <= j < |rows0| ==> LeadShaped(rows0[j])
    modifies db
    ensures db.Valid() && db.leads == Researched(rows0, started + [id], now)
    ensures IdOf(lead) == JStr(id) && leadData == PipelineInput(lead, sender)
    ensures db.usage == old(db.usage) && db.emailLogs == old(db.emailLogs)
  {
    leadData := ToDict(lead);
    leadData := leadData["sender_name" := JStr(sender)];
    assert LeadShaped(lead);
    id := lead["lead_id"].s;
    ResearchedStep(rows0, started, id, now);
    MarkResearching(db, id, now);
  }

  /**
   * With at most 50 "new" leads, the batch starts every one of them: each
   * such lead's id is among the started ones and its row is now
   * "researching".
   */
  lemma BatchStartsAllNew(rows: seq<Record>, started: seq<string>, now: string, j: nat)
    requires CountLeads(rows, Some("new")) <= BatchLimit
    requires var batch := LeadTable.ListLeads(rows, Some("new"), BatchLimit, 0);
      |started| == |batch| && forall k :: 0 <= k < |batch| ==> IdOf(batch[k]) == JStr(started[k])
    requires j < |rows| && Val(rows[j], "status") == JStr("new") && IdOf(rows[j]).JStr?
    ensures IdOf(rows[j]).s in started
    ensures Val(Researched(rows, started, now)[j], "status") == JStr("researching")
  {
    var batch := LeadTable.ListLeads(rows, Some("new"), BatchLimit, 0);
    ListLeadsEffect(rows, Some("new"), BatchLimit, 0);
    StatusFilterEffect(rows, Some("new"));
    assert rows[j] in multiset(batch);
    var k :| 0 <= k < |batch| && batch[k] == rows[j];
    assert IdOf(rows[j]) == JStr(started[k]);
    UpdatedWrites(rows[j], Researching, now, "status");
  }
}
