/**
 * The CSV upload route: a file name check, the daily upload quota, then
 * one insert per parsed lead, each either created or skipped with the
 * error's text. The file's records (as the CSV tokenizer splits them),
 * the uuids, the clock and the request headers are parameters.
 */
module UploadRoutes {
  import opened Wrappers
  import opened JsonValues
  import opened LeadStates
  import opened LeadRecords
  import opened LeadTable
  import opened Database
  import opened Http
  import opened DataParser
  import CsvReader
  import PyLists
  import PyStrings
  import LeadRoutes

  /** Uploads allowed per user and day on the free tier. */
  const UploadLimit := 5

  const UploadLimitDetail := "Daily CSV upload limit reached (5/day on Free tier). Upgrade to Pro for 25 uploads/day."

  /** `file.filename and file.filename.endswith(".csv")`: a missing or empty name fails too. */
  predicate IsCsvName(filename: Option<string>) {
    filename.Some? && PyStrings.EndsWith(filename.value, ".csv")
  }

  /** The reply to a file that is not a CSV file; it is a normal reply, not an HTTP error. */
  const NotCsv: State := map["error" := JStr("Please upload a CSV file")]

  /**
   * The quota gate of `upload_csv`: None when the user has used up today's
   * uploads (429), else the counters with one more upload.
   */
  function UploadGate(usage: map<(string, string), UserUsage>, userId: string, today: string): Option<map<(string, string), UserUsage>> {
    var u := UsageOf(usage, userId, today);
    if u.csvCount >= UploadLimit then None else Some(usage[(userId, today) := u.(csvCount := u.csvCount + 1)])
  }

  /**
   * The two daily quotas are independent: an admitted upload raises only
   * the day's upload count, and an admitted process call only its search
   * count; every other user and day keeps its counters.
   */
  lemma GatesIndependent(usage: map<(string, string), UserUsage>, userId: string, today: string, key: (string, string))
    ensures var u := UsageOf(usage, userId, today);
      && (UploadGate(usage, userId, today).Some? <==> u.csvCount < UploadLimit)
      && (UploadGate(usage, userId, today).Some? ==>
            var v := UsageOf(UploadGate(usage, userId, today).value, key.0, key.1);
            if key == (userId, today) then v.csvCount == u.csvCount + 1 && v.searchCount == u.searchCount
            else v == UsageOf(usage, key.0, key.1))
      && (LeadRoutes.SearchGate(usage, userId, today).Some? ==>
            var v := UsageOf(LeadRoutes.SearchGate(usage, userId, today).value, key.0, key.1);
            if key == (userId, today) then v.searchCount == u.searchCount + 1 && v.csvCount == u.csvCount
            else v == UsageOf(usage, key.0, key.1))
  {
  }

  /** An entry of the reply's `skipped` list: the lead's company name and the error's text. */
  function SkipEntry(lead: State, reason: string): Json {
    JObj([("company_name", Get(lead, "company_name", JStr("Unknown"))), ("reason", JStr(reason))])
  }

  /** The rows after an import, with the ids created and the leads skipped, in input order. */
  datatype Imported = Imported(rows: seq<Record>, created: seq<string>, skipped: seq<Json>)

  /**
   * The leads inserted one after another into `rows`: a lead the commit
   * accepts is appended and its id recorded; one it refuses is skipped
   * with `errorText` of the error. Each lead is either created or skipped.
   */
  function Import(rows: seq<Record>, leads: seq<State>, now: string, errorText: DbError -> string): (r: Imported)
    ensures |r.created| + |r.skipped| == |leads|
    decreases |leads|
  {
    if leads == [] then Imported(rows, [], [])
    else
      var prev := Import(rows, leads[..|leads| - 1], now, errorText);
      var lead := leads[|leads| - 1];
      match InsertLead(prev.rows, lead, now)
      case Ok(record) => Imported(prev.rows + [record], prev.created + [IdOf(record).s], prev.skipped)
      case Err(e) => Imported(prev.rows, prev.created, prev.skipped + [SkipEntry(lead, errorText(e))])
  }

  /**
   * An import only appends: the old rows stay in front, one new row per
   * created id, holding that id, in order.
   */
  lemma {:induction false} ImportAppends(rows: seq<Record>, leads: seq<State>, now: string, errorText: DbError -> string)
    ensures var imp := Import(rows, leads, now, errorText);
      && |imp.rows| == |rows| + |imp.created|
      && imp.rows[..|rows|] == rows
      && forall k :: 0 <= k < |imp.created| ==> IdOf(imp.rows[|rows| + k]) == JStr(imp.created[k])
    decreases |leads|
  {
    if leads != [] {
      var prev := Import(rows, leads[..|leads| - 1], now, errorText);
      ImportAppends(rows, leads[..|leads| - 1], now, errorText);
      var imp := Import(rows, leads, now, errorText);
      if InsertLead(prev.rows, leads[|leads| - 1], now).Ok? {
        assert imp.rows == prev.rows + [imp.rows[|imp.rows| - 1]];
        forall k | 0 <= k < |imp.created| ensures IdOf(imp.rows[|rows| + k]) == JStr(imp.created[k]) {
          if k < |prev.created| {
            assert imp.rows[|rows| + k] == prev.rows[|rows| + k];
          }
        }
      }
    }
  }

  /** A lead that can be stored: lead columns only, values that bind to their columns, an id and a company name. */
  predicate Insertable(lead: State) {
    lead.Keys <= LeadColumns && ValuesShaped(lead) && RowBinds(lead) && Val(lead, "lead_id").JStr? && Val(lead, "company_name").JStr?
  }

  /** The ids the leads carry. */
  function LeadIds(leads: seq<State>): (r: seq<string>)
    ensures |r| == |leads|
    ensures forall k :: 0 <= k < |leads| && Val(leads[k], "lead_id").JStr? ==> Val(leads[k], "lead_id") == JStr(r[k])
  {
    seq(|leads|, k requires 0 <= k < |leads| => var id := Val(leads[k], "lead_id"); if id.JStr? then id.s else "")
  }

  /**
   * With insertable leads whose ids are distinct and new to the table,
   * nothing is skipped: every lead is created, with its own id, in order.
   */
  lemma {:induction false} ImportFresh(rows: seq<Record>, leads: seq<State>, now: string, errorText: DbError -> string)
    requires forall k :: 0 <= k < |leads| ==> Insertable(leads[k])
    requires PyLists.Distinct(LeadIds(leads))
    requires forall k, i :: 0 <= k < |leads| && 0 <= i < |rows| ==> IdOf(rows[i]) != Val(leads[k], "lead_id")
    ensures Import(rows, leads, now, errorText).skipped == []
    ensures Import(rows, leads, now, errorText).created == LeadIds(leads)
    decreases |leads|
  {
    if leads != [] {
      var init := leads[..|leads| - 1];
      var lead := leads[|leads| - 1];
      LeadIdsLast(leads);
      assert forall k :: 0 <= k < |init| ==> init[k] == leads[k];
      assert PyLists.Distinct(LeadIds(init));
      ImportFresh(rows, init, now, errorText);
      var prev := Import(rows, init, now, errorText);
      NewIdAbsent(rows, leads, now, errorText);
      InsertFresh(prev.rows, lead, now);
      var record := InsertLead(prev.rows, lead, now).value;
      assert Import(rows, leads, now, errorText) == Imported(prev.rows + [record], prev.created + [IdOf(record).s], prev.skipped);
    }
  }

  /** The ids of all the leads are the ids of all but the last, then the last one's. */
  lemma LeadIdsLast(leads: seq<State>)
    requires leads != []
    ensures LeadIds(leads[..|leads| - 1]) == LeadIds(leads)[..|leads| - 1]
    ensures LeadIds(leads) == LeadIds(leads[..|leads| - 1]) + [LeadIds(leads)[|leads| - 1]]
  {
    var init := leads[..|leads| - 1];
    assert forall k :: 0 <= k < |init| ==> LeadIds(init)[k] == LeadIds(leads)[k];
  }

  /** The last lead's id is on none of the rows the leads before it left, when all ids are distinct and new. */
  lemma NewIdAbsent(rows: seq<Record>, leads: seq<State>, now: string, errorText: DbError -> string)
    requires leads != [] && Val(leads[|leads| - 1], "lead_id").JStr?
    requires PyLists.Distinct(LeadIds(leads))
    requires forall k, i :: 0 <= k < |leads| && 0 <= i < |rows| ==> IdOf(rows[i]) != Val(leads[k], "lead_id")
    requires Import(rows, leads[..|leads| - 1], now, errorText).created == LeadIds(leads)[..|leads| - 1]
    ensures var prev := Import(rows, leads[..|leads| - 1], now, errorText);
      forall i :: 0 <= i < |prev.rows| ==> IdOf(prev.rows[i]) != Val(leads[|leads| - 1], "lead_id")
  {
    var init := leads[..|leads| - 1];
    var lead := leads[|leads| - 1];
    var prev := Import(rows, init, now, errorText);
    var ids := LeadIds(leads);
    ImportAppends(rows, init, now, errorText);
    assert Val(lead, "lead_id") == JStr(ids[|leads| - 1]);
    forall i | 0 <= i < |prev.rows| ensures IdOf(prev.rows[i]) != Val(lead, "lead_id") {
      if i < |rows| {
        assert prev.rows[i] == rows[i];
      } else {
        var k := i - |rows|;
        assert prev.created[k] == ids[k] && ids[k] != ids[|leads| - 1];
        assert IdOf(prev.rows[|rows| + k]) == JStr(prev.created[k]);
      }
    }
  }

  /** An insertable lead whose id no row has is stored as the new row, with its own id. */
  lemma InsertFresh(rows: seq<Record>, lead: State, now: string)
    requires Insertable(lead)
    requires forall i :: 0 <= i < |rows| ==> IdOf(rows[i]) != Val(lead, "lead_id")
    ensures InsertLead(rows, lead, now).Ok?
    ensures IdOf(InsertLead(rows, lead, now).value) == Val(lead, "lead_id")
  {
    InsertLeadErrors(rows, lead, now);
    NewLeadStorable(lead, now);
  }

  /** Every key a mapped CSV row can hold is a lead column. */
  lemma MappedKeysAreColumns()
    ensures BaseKeys + MappedFields <= LeadColumns
  {
  }

  /**
   * A mapped row with a company name, stamped with the `datetime`, is
   * insertable: lead columns, values that bind to them, the row's uuid.
   */
  lemma MappedRowInsertable(row: Row, leadId: string, now: string)
    requires HasCompany(MappedRow(row, leadId, Stamp(DateTime, now)))
    ensures Insertable(MappedRow(row, leadId, Stamp(DateTime, now)))
    ensures Val(MappedRow(row, leadId, Stamp(DateTime, now)), "lead_id") == JStr(leadId)
  {
    var stamp := Stamp(DateTime, now);
    var lead := MappedRow(row, leadId, stamp);
    assert lead.Keys <= LeadColumns by {
      MappedRowKeys(row, leadId, stamp);
      MappedKeysAreColumns();
    }
    assert lead["lead_id"] == JStr(leadId) && lead["score"] == JInt(0) && lead["status"] == JStr("new") by {
      BaseFieldsKept(row, leadId, stamp, "lead_id");
      BaseFieldsKept(row, leadId, stamp, "score");
      BaseFieldsKept(row, leadId, stamp, "status");
    }
    assert lead["company_name"].JStr? by {
      assert "company_name" in MappedFields;
      FilledFields(row, leadId, stamp, "company_name");
    }
    MappedRowBinds(row, leadId, now);
  }

  /** Every value of a mapped row stamped with the `datetime` binds to its column. */
  lemma MappedRowBinds(row: Row, leadId: string, now: string)
    ensures RowBinds(MappedRow(row, leadId, Stamp(DateTime, now)))
  {
    var lead := MappedRow(row, leadId, Stamp(DateTime, now));
    MappedRowKeys(row, leadId, Stamp(DateTime, now));
    forall c | c in lead ensures BindsAt(lead, c) {
      if c in BaseKeys {
        BaseValueBinds(row, leadId, now, c);
      } else {
        FilledValueBinds(row, leadId, now, c);
      }
    }
  }

  /** A fixed key keeps its starting value: text, a number or the `datetime`, each of which binds. */
  lemma BaseValueBinds(row: Row, leadId: string, now: string, c: string)
    requires c in BaseKeys
    ensures BindsAt(MappedRow(row, leadId, Stamp(DateTime, now)), c)
  {
    var lead := MappedRow(row, leadId, Stamp(DateTime, now));
    BaseFieldsKept(row, leadId, Stamp(DateTime, now), c);
    if IsTimestamp(c) {
      TimestampType(c);
    } else {
      ScalarBinds(c, lead[c]);
    }
  }

  /** A filled key holds text, which binds to its String column. */
  lemma FilledValueBinds(row: Row, leadId: string, now: string, c: string)
    requires c in MappedFields
    ensures BindsAt(MappedRow(row, leadId, Stamp(DateTime, now)), c)
  {
    var lead := MappedRow(row, leadId, Stamp(DateTime, now));
    FilledFields(row, leadId, Stamp(DateTime, now), c);
    KeysDisjoint(c);
    if c in lead {
      ScalarBinds(c, lead[c]);
    }
  }

  /** Every parsed lead is insertable. */
  lemma ParsedLeadInsertable(rows: seq<CsvReader.DictRow>, ids: nat -> string, clock: nat -> string, k: nat)
    requires k < |ParsedLeads(rows, ids, clock, DateTime)|
    ensures Insertable(ParsedLeads(rows, ids, clock, DateTime)[k])
  {
    var lead := ParsedLeads(rows, ids, clock, DateTime)[k];
    var mapped := MappedRows(rows, ids, clock, DateTime);
    assert lead in mapped && HasCompany(lead) by {
      ParsedLeadsShape(rows, ids, clock, DateTime);
      PyLists.SubseqMember(ParsedLeads(rows, ids, clock, DateTime), mapped, lead);
    }
    var n :| 0 <= n < |mapped| && mapped[n] == lead;
    MappedRowInsertable(rows[n].cells, ids(n), clock(n));
  }

  /**
   * As written, a mapped row's timestamps are ISO text, which the DateTime
   * columns refuse: the row names only lead columns, so its insert fails
   * with the bind error whatever the table holds.
   */
  lemma IsoStampedRowRefused(records: seq<Record>, row: Row, leadId: string, stamp: string, now: string)
    ensures InsertLead(records, MappedRow(row, leadId, Stamp(IsoText, stamp)), now) == Err(BindError)
  {
    var lead := MappedRow(row, leadId, Stamp(IsoText, stamp));
    MappedRowKeys(row, leadId, Stamp(IsoText, stamp));
    MappedKeysAreColumns();
    BaseFieldsKept(row, leadId, Stamp(IsoText, stamp), "created_at");
    TimestampType("created_at");
    assert !Binds(ColumnType("created_at"), lead["created_at"]);
    InsertLeadErrors(records, lead, now);
  }

  /** Leads that each fail with the bind error are all skipped, with that error's text, and the rows stay as they were. */
  lemma {:induction false} ImportRefused(rows: seq<Record>, leads: seq<State>, now: string, errorText: DbError -> string)
    requires forall k, rs :: 0 <= k < |leads| ==> InsertLead(rs, leads[k], now) == Err(BindError)
    ensures var imp := Import(rows, leads, now, errorText);
      && imp.rows == rows && imp.created == [] && |imp.skipped| == |leads|
      && forall k :: 0 <= k < |leads| ==> imp.skipped[k] == SkipEntry(leads[k], errorText(BindError))
    decreases |leads|
  {
    if leads != [] {
      var init := leads[..|leads| - 1];
      assert forall k :: 0 <= k < |init| ==> init[k] == leads[k];
      ImportRefused(rows, init, now, errorText);
      assert InsertLead(rows, leads[|leads| - 1], now) == Err(BindError);
    }
  }

  /**
   * The upload as written creates nothing: every parsed lead carries ISO
   * text timestamps, so each insert fails with the bind error and each
   * lead is reported as skipped.
   */
  lemma CsvImportAsWritten(rows: seq<Record>, csvRows: seq<CsvReader.DictRow>, ids: nat -> string, clock: nat -> string,
                           now: string, errorText: DbError -> string)
    ensures var leads := ParsedLeads(csvRows, ids, clock, IsoText);
      var imp := Import(rows, leads, now, errorText);
      && imp.rows == rows && imp.created == [] && |imp.skipped| == |leads|
      && forall k :: 0 <= k < |leads| ==> imp.skipped[k] == SkipEntry(leads[k], errorText(BindError))
  {
    var leads := ParsedLeads(csvRows, ids, clock, IsoText);
    var mapped := MappedRows(csvRows, ids, clock, IsoText);
    forall k, rs | 0 <= k < |leads| ensures InsertLead(rs, leads[k], now) == Err(BindError) {
      ParsedLeadsShape(csvRows, ids, clock, IsoText);
      PyLists.SubseqMember(leads, mapped, leads[k]);
      var n :| 0 <= n < |mapped| && mapped[n] == leads[k];
      IsoStampedRowRefused(rs, csvRows[n].cells, ids(n), clock(n), now);
    }
    ImportRefused(rows, leads, now, errorText);
  }

  /** The reply of an accepted upload. */
  function ImportReply(created: seq<string>, skipped: seq<Json>): State {
    map["message" := JStr("Imported " + PyStrings.IntStr(|created|) + " leads"),
        "created_count" := JInt(|created|), "skipped_count" := JInt(|skipped|),
        "created_ids" := JList(seq(|created|, k requires 0 <= k < |created| => JStr(created[k]))),
        "skipped" := JList(skipped)]
  }

  /**
   * `upload_csv`: a file whose name does not end in ".csv" gets the error
   * reply and changes nothing; a used-up upload quota is a 429 that
   * changes nothing; otherwise the upload is counted once, before the file
   * is read. A record with more cells than the header makes the parser
   * raise, which is a 500 with the upload still counted; otherwise the
   * leads, parsed with the corrected `datetime` stamp (see the README's
   * Findings), are stored one by one. As written, with ISO text stamps,
   * every lead is skipped: `CsvImportAsWritten`.
   */
  method UploadCsv(db: LeadDatabase, filename: Option<string>, userHeader: Option<string>, today: string,
                   records: seq<seq<string>>, ids: nat -> string, clock: nat -> string, now: string, errorText: DbError -> string)
    returns (r: Response<State>)
    requires db.Valid()
    modifies db
    ensures db.Valid()
    ensures db.emailLogs == old(db.emailLogs)
    ensures !IsCsvName(filename) ==> r == Body(NotCsv) && db.leads == old(db.leads) && db.usage == old(db.usage)
    ensures IsCsvName(filename) && UploadGate(old(db.usage), Header(userHeader, DefaultUser), today).None? ==>
      r == HttpError(429, UploadLimitDetail) && db.leads == old(db.leads) && db.usage == old(db.usage)
    ensures IsCsvName(filename) && UploadGate(old(db.usage), Header(userHeader, DefaultUser), today).Some? ==>
      && db.usage == UploadGate(old(db.usage), Header(userHeader, DefaultUser), today).value
      && match Parsed(records, ids, clock, DateTime)
         case Err(_) => r == LeadRoutes.ServerError && db.leads == old(db.leads)
         case Ok(leads) =>
           var imported := Import(old(db.leads), leads, now, errorText);
           db.leads == imported.rows && r == Body(ImportReply(imported.created, imported.skipped))
  {
    if !IsCsvName(filename) {
      return Body(NotCsv);
    }
    var admitted := ChargeUpload(db, Header(userHeader, DefaultUser), today);
    if !admitted {
      return HttpError(429, UploadLimitDetail);
    }
    var leads, _ := ParseCsv(records, ids, clock);
    if leads.Err? {
      return LeadRoutes.ServerError;
    }
    forall k | 0 <= k < |leads.value| ensures Insertable(leads.value[k]) {
      ParsedLeadInsertable(CsvReader.DictRows(records), ids, clock, k);
    }
    var created, skipped := ImportLeads(db, leads.value, now, errorText);
    r := Body(ImportReply(created, skipped));
  }

  /**
   * The quota check and count of `upload_csv`: `get_daily_usage`, then
   * either the 429 or `increment_csv_count`.
   */
  method ChargeUpload(db: LeadDatabase, userId: string, today: string) returns (admitted: bool)
    requires db.Valid()
    modifies db
    ensures db.Valid()
    ensures admitted <==> UploadGate(old(db.usage), userId, today).Some?
    ensures db.usage == if admitted then UploadGate(old(db.usage), userId, today).value else old(db.usage)
    ensures db.leads == old(db.leads) && db.emailLogs == old(db.emailLogs)
  {
    var usage := db.GetDailyUsage(userId, today);
    if usage.csvCount >= UploadLimit {
      assert (userId, today) in old(db.usage);
      assert db.usage == old(db.usage);
      return false;
    }
    ghost var counted := usage.(csvCount := usage.csvCount + 1);
    ghost var mid := db.usage;
    assert UsageOf(mid, userId, today) == usage;
    var _ := db.IncrementCsvCount(userId, today);
    assert db.usage == mid[(userId, today) := counted];
    assert mid[(userId, today) := counted] == old(db.usage)[(userId, today) := counted];
    admitted := true;
  }

  /** The loop of `upload_csv` over the parsed leads, each insert committed or skipped on its own. */
  method ImportLeads(db: LeadDatabase, leads: seq<State>, now: string, errorText: DbError -> string)
    returns (created: seq<string>, skipped: seq<Json>)
    requires db.Valid() && forall k :: 0 <= k < |leads| ==> Insertable(leads[k])
    modifies db
    ensures db.Valid()
    ensures Import(old(db.leads), leads, now, errorText) == Imported(db.leads, created, skipped)
    ensures db.usage == old(db.usage) && db.emailLogs == old(db.emailLogs)
  {
    ghost var rows0 := db.leads;
    created, skipped := [], [];
    for i := 0 to |leads|
      invariant db.Valid()
      invariant Import(rows0, leads[..i], now, errorText) == Imported(db.leads, created, skipped)
      invariant db.usage == old(db.usage) && db.emailLogs == old(db.emailLogs)
    {
      created, skipped := ImportNext(db, rows0, leads, i, created, skipped, now, errorText);
    }
    assert leads[..|leads|] == leads;
  }

  /** Importing one more lead inserts it into the rows the earlier ones left. */
  lemma ImportStep(rows: seq<Record>, leads: seq<State>, i: nat, now: string, errorText: DbError -> string)
    requires i < |leads|
    ensures var prev := Import(rows, leads[..i], now, errorText);
      Import(rows, leads[..i + 1], now, errorText) ==
        match InsertLead(prev.rows, leads[i], now)
        case Ok(record) => Imported(prev.rows + [record], prev.created + [IdOf(record).s], prev.skipped)
        case Err(e) => Imported(prev.rows, prev.created, prev.skipped + [SkipEntry(leads[i], errorText(e))])
  {
    assert leads[..i + 1][..i] == leads[..i];
  }

  /** One turn of the `upload_csv` loop: the next lead is created or skipped, as the import definition records it. */
  method ImportNext(db: LeadDatabase, ghost rows0: seq<Record>, leads: seq<State>, i: nat,
                    created: seq<string>, skipped: seq<Json>, now: string, errorText: DbError -> string)
    returns (created': seq<string>, skipped': seq<Json>)
    requires i < |leads| && db.Valid() && Insertable(leads[i])
    requires Import(rows0, leads[..i], now, errorText) == Imported(db.leads, created, skipped)
    modifies db
    ensures db.Valid()
    ensures Import(rows0, leads[..i + 1], now, errorText) == Imported(db.leads, created', skipped')
    ensures db.usage == old(db.usage) && db.emailLogs == old(db.emailLogs)
  {
    ImportStep(rows0, leads, i, now, errorText);
    var record := db.CreateLead(leads[i], now);
    if record.Ok? {
      created', skipped' := created + [IdOf(record.value).s], skipped;
    } else {
      created', skipped' := created, skipped + [SkipEntry(leads[i], errorText(record.error))];
    }
  }
}
