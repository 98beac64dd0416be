/**
 * The database session as one object: the `leads` rows, the `user_usage`
 * counters keyed by user and day, and the `email_logs` rows. Each method is
 * one function of `database/operations.py`, with its commit; the clock
 * reading (`now`, and `today` as "%Y-%m-%d") is a parameter.
 */
module Database {
  import opened Wrappers
  import opened JsonValues
  import opened LeadStates
  import opened LeadRecords
  import opened LeadTable

  /**
   * An insert or update the database refuses: a keyword that is no column,
   * a value its column's type or the driver cannot bind, or a NOT NULL or
   * primary-key violation.
   */
  datatype DbError = UnknownColumn | BindError | IntegrityError

  /**
   * What the commit of `LeadRecord(**data)` does: the row it inserts, or
   * the error it raises. Binding comes before the database sees the row;
   * the column defaults always bind, so only the given values can fail.
   */
  function InsertLead(rows: seq<Record>, data: State, now: string): (r: Result<Record, DbError>)
    ensures r.Ok? ==> data.Keys <= LeadColumns && RowBinds(data) && r.value == NewLead(data, now) && Storable(r.value)
  {
    if !(data.Keys <= LeadColumns) then Err(UnknownColumn)
    else if !RowBinds(data) then Err(BindError)
    else
      var r := NewLead(data, now);
      if !Storable(r) || Find(rows, r["lead_id"].s).Some? then Err(IntegrityError) else Ok(r)
  }

  /** The inserted row has its id and company name set exactly when `data` gives them as text. */
  lemma NewLeadStorable(data: State, now: string)
    requires data.Keys <= LeadColumns
    ensures Storable(NewLead(data, now)) <==> Val(data, "lead_id").JStr? && Val(data, "company_name").JStr?
    ensures Val(NewLead(data, now), "lead_id") == Val(data, "lead_id")
  {
    NewLeadColumn(data, now, "lead_id");
    NewLeadColumn(data, now, "company_name");
  }

  /** A column with no default is NULL unless `data` sets it. */
  lemma NewLeadColumn(data: State, now: string, c: string)
    requires data.Keys <= LeadColumns && c in LeadColumns && LeadDefault(c, now) == JNull
    ensures Val(NewLead(data, now), c) == Val(data, c)
  {
    NewLeadFields(data, now);
    if c in data {
      assert NewLead(data, now)[c] == data[c];
    } else {
      assert NewLead(data, now)[c] == LeadDefault(c, now);
    }
  }

  /** A row built from column values of the right types, with its NOT NULL columns set, has every column's type. */
  lemma NewLeadShaped(data: State, now: string)
    requires data.Keys <= LeadColumns && ValuesShaped(data) && RowBinds(data) && Storable(NewLead(data, now))
    ensures LeadShaped(NewLead(data, now))
  {
    var r := NewLead(data, now);
    NewLeadFields(data, now);
    assert "score" in LeadColumns && "status" in LeadColumns;
    assert "created_at" in LeadColumns && "updated_at" in LeadColumns;
    assert r["score"] == if "score" in data then data["score"] else JInt(0);
    assert r["status"] == if "status" in data then data["status"] else JStr("new");
    TimestampKept(data, now, "created_at");
    TimestampKept(data, now, "updated_at");
  }

  /** A timestamp column of the new row is the given value, which binds, or the insert time. */
  lemma TimestampKept(data: State, now: string, c: string)
    requires data.Keys <= LeadColumns && RowBinds(data) && IsTimestamp(c)
    ensures NewLead(data, now)[c].JTime? || NewLead(data, now)[c].JNull?
  {
    NewLeadFields(data, now);
    if c in data {
      TimestampType(c);
      assert BindsAt(data, c);
    }
  }

  /**
   * An insert fails with UnknownColumn exactly when `data` names a
   * non-column, with BindError exactly when it names only columns but one
   * of its values does not bind, and with IntegrityError exactly when all
   * bind but the id or company name is missing or NULL, or the id is taken.
   */
  lemma InsertLeadErrors(rows: seq<Record>, data: State, now: string)
    ensures InsertLead(rows, data, now) == Err(UnknownColumn) <==> !(data.Keys <= LeadColumns)
    ensures InsertLead(rows, data, now) == Err(BindError) <==>
      data.Keys <= LeadColumns && exists c :: c in data && !Binds(ColumnType(c), data[c])
    ensures InsertLead(rows, data, now) == Err(IntegrityError) <==>
      data.Keys <= LeadColumns && RowBinds(data) &&
      (!Val(data, "lead_id").JStr? || !Val(data, "company_name").JStr?
       || exists i :: 0 <= i < |rows| && IdOf(rows[i]) == Val(data, "lead_id"))
  {
    if data.Keys <= LeadColumns {
      NewLeadStorable(data, now);
      if Val(data, "lead_id").JStr? {
        FindIff(rows, Val(data, "lead_id").s);
      }
      if !RowBinds(data) {
        var c :| c in data && !BindsAt(data, c);
      }
      if exists c :: c in data && !Binds(ColumnType(c), data[c]) {
        var c :| c in data && !Binds(ColumnType(c), data[c]);
        assert !BindsAt(data, c);
      }
    }
  }

  /** An inserted row has every column's type, and keeps the ids unique. */
  lemma InsertLeadOk(rows: seq<Record>, data: State, now: string)
    requires UniqueIds(rows) && ValuesShaped(data) && InsertLead(rows, data, now).Ok?
    ensures InsertLead(rows, data, now).value == NewLead(data, now)
    ensures LeadShaped(NewLead(data, now)) && UniqueIds(rows + [NewLead(data, now)])
  {
    var r := NewLead(data, now);
    NewLeadShaped(data, now);
    FindIff(rows, r["lead_id"].s);
    var t := rows + [r];
    forall i, j | 0 <= i < j < |t| ensures IdOf(t[i]) != IdOf(t[j]) {
      if j == |rows| { assert t[i] == rows[i]; } else { assert t[i] == rows[i] && t[j] == rows[j]; }
    }
  }

  lemma AppendShaped(rows: seq<Record>, r: Record)
    requires (forall i :: 0 <= i < |rows| ==> LeadShaped(rows[i])) && LeadShaped(r)
    ensures forall i :: 0 <= i < |rows + [r]| ==> LeadShaped((rows + [r])[i])
  {
  }

  /**
   * What `update_lead` does to the rows: the new rows, or the error the
   * commit raises. The statement binds its values, `updated_at` being the
   * clock's `datetime`, whether or not a row has the id.
   */
  function UpdateAll(rows: seq<Record>, id: string, data: State, now: string): Result<seq<Record>, DbError> {
    if !(data.Keys <= LeadColumns) then Err(UnknownColumn)
    else if !RowBinds(data["updated_at" := JTime(now)]) then Err(BindError)
    else
      var u := UpdateRows(rows, id, data, now);
      if (exists i :: 0 <= i < |u| && !Storable(u[i])) || !UniqueIds(u) then Err(IntegrityError) else Ok(u)
  }

  /** The clock's `datetime` binds to `updated_at`, so an update binds exactly when the values it is given do. */
  lemma UpdateBinds(data: State, now: string)
    ensures RowBinds(data["updated_at" := JTime(now)]) <==>
      forall c :: c in data && c != "updated_at" ==> Binds(ColumnType(c), data[c])
    ensures RowBinds(data["updated_at" := JTime(now)]) ==> Binds(DateTimeType, Val(data, "created_at"))
  {
    var d := data["updated_at" := JTime(now)];
    TimestampType("updated_at");
    TimestampType("created_at");
    assert BindsAt(d, "updated_at");
    if RowBinds(d) {
      forall c | c in data && c != "updated_at" ensures Binds(ColumnType(c), data[c]) {
        assert BindsAt(d, c);
      }
      if "created_at" in data {
        assert BindsAt(d, "created_at");
      }
    }
    if forall c :: c in data && c != "updated_at" ==> Binds(ColumnType(c), data[c]) {
      forall c | c in d ensures BindsAt(d, c) {
        if c != "updated_at" {
          assert c in data && d[c] == data[c];
        }
      }
    } else {
      var c :| c in data && c != "updated_at" && !Binds(ColumnType(c), data[c]);
      assert !BindsAt(d, c);
    }
  }

  /**
   * An update fails with BindError exactly when it names only columns but
   * one of the values it is given, other than `updated_at` which the
   * clock overrides, does not bind.
   */
  lemma UpdateAllBindError(rows: seq<Record>, id: string, data: State, now: string)
    ensures UpdateAll(rows, id, data, now) == Err(BindError) <==>
      data.Keys <= LeadColumns && exists c :: c in data && c != "updated_at" && !Binds(ColumnType(c), data[c])
  {
    UpdateBinds(data, now);
  }

  /**
   * An update of columns only, with values that bind, that keeps the id
   * and sets no NOT NULL column to NULL, always succeeds, and keeps every
   * row well-formed.
   */
  lemma UpdateAllSucceeds(rows: seq<Record>, id: string, data: State, now: string)
    requires UniqueIds(rows) && (forall i :: 0 <= i < |rows| ==> LeadShaped(rows[i]))
    requires data.Keys <= LeadColumns && ValuesShaped(data) && RowBinds(data)
    requires "lead_id" in data ==> data["lead_id"] == JStr(id)
    requires "company_name" in data ==> data["company_name"].JStr?
    ensures UpdateAll(rows, id, data, now) == Ok(UpdateRows(rows, id, data, now))
    ensures forall i :: 0 <= i < |rows| ==> LeadShaped(UpdateRows(rows, id, data, now)[i])
  {
    UpdateBinds(data, now);
    forall c | c in data && c != "updated_at" ensures Binds(ColumnType(c), data[c]) {
      assert BindsAt(data, c);
    }
    UpdateKeepsIds(rows, id, data, now);
    var u := UpdateRows(rows, id, data, now);
    forall i | 0 <= i < |u| ensures Storable(u[i]) && LeadShaped(u[i]) {
      if IdOf(rows[i]) == JStr(id) {
        UpdateKeepsShape(rows[i], data, now);
      }
    }
  }

  /** A committed update leaves every row well-formed. */
  lemma UpdateAllShape(rows: seq<Record>, id: string, data: State, now: string)
    requires (forall i :: 0 <= i < |rows| ==> LeadShaped(rows[i])) && ValuesShaped(data)
    requires UpdateAll(rows, id, data, now).Ok?
    ensures UniqueIds(UpdateAll(rows, id, data, now).value)
    ensures forall i :: 0 <= i < |rows| ==> LeadShaped(UpdateAll(rows, id, data, now).value[i])
  {
    var u := UpdateRows(rows, id, data, now);
    UpdateBinds(data, now);
    forall i | 0 <= i < |rows| ensures LeadShaped(u[i]) {
      assert Storable(u[i]);
      if IdOf(rows[i]) == JStr(id) {
        UpdateKeepsShape(rows[i], data, now);
      }
    }
  }

  /** What the commit of `EmailLog(**data)` does: the row it inserts, or the error it raises. */
  function InsertEmailLog(data: State, now: string): (r: Result<Record, DbError>)
    ensures r == Err(UnknownColumn) <==> !(data.Keys <= EmailLogColumns)
    ensures r == Err(BindError) <==>
      data.Keys <= EmailLogColumns && exists c :: c in data && !Binds(EmailLogType(c), data[c])
    ensures r.Ok? ==> (r.value == NewEmailLog(data, now)
      && forall c :: c in {"lead_id", "to_email", "subject", "body"} ==> r.value[c] != JNull)
  {
    if !(data.Keys <= EmailLogColumns) then Err(UnknownColumn)
    else if exists c :: c in data && !Binds(EmailLogType(c), data[c]) then Err(BindError)
    else
      var r := NewEmailLog(data, now);
      if r["lead_id"] == JNull || r["to_email"] == JNull || r["subject"] == JNull || r["body"] == JNull
      then Err(IntegrityError) else Ok(r)
  }

  /** The (user, day) counters as `get_daily_usage` finds them: the stored row, or a fresh one. */
  function UsageOf(usage: map<(string, string), UserUsage>, userId: string, today: string): (u: UserUsage)
    ensures (userId, today) !in usage ==> u == NewUsage(userId, today)
  {
    if (userId, today) in usage then usage[(userId, today)] else NewUsage(userId, today)
  }

  class LeadDatabase {
    var leads: seq<Record>
    var usage: map<(string, string), UserUsage>
    var emailLogs: seq<Record>

    /** Lead ids are unique, every lead has its columns, and each counter row sits under its own user and day. */
    ghost predicate Valid()
      reads this
    {
      && UniqueIds(leads)
      && (forall i :: 0 <= i < |leads| ==> LeadShaped(leads[i]))
      && (forall k :: k in usage ==> usage[k].userId == k.0 && usage[k].date == k.1)
    }

    /** An empty database. */
    constructor ()
      ensures Valid() && leads == [] && usage == map[] && emailLogs == []
    {
      leads := [];
      usage := map[];
      emailLogs := [];
    }

    /** `create_lead` */
    method CreateLead(data: State, now: string) returns (r: Result<Record, DbError>)
      requires Valid() && ValuesShaped(data)
      modifies this
      ensures Valid()
      ensures r == InsertLead(old(leads), data, now)
      ensures leads == if r.Ok? then old(leads) + [r.value] else old(leads)
      ensures usage == old(usage) && emailLogs == old(emailLogs)
    {
      r := InsertLead(leads, data, now);
      if r.Ok? {
        InsertLeadOk(leads, data, now);
        AppendShaped(leads, r.value);
        leads := leads + [r.value];
      }
    }

    /** `get_lead` */
    method GetLead(id: string) returns (r: Option<Record>)
      ensures r == Find(leads, id)
      ensures r.Some? <==> exists i :: 0 <= i < |leads| && IdOf(leads[i]) == JStr(id)
    {
      FindIff(leads, id);
      r := Find(leads, id);
    }

    /** `list_leads` */
    method ListLeads(status: Option<string>, limit: int, offset: int) returns (r: seq<Record>)
      ensures r == LeadTable.ListLeads(leads, status, limit, offset)
      ensures Ordering.SortedBy(r, NewestFirst)
    {
      r := LeadTable.ListLeads(leads, status, limit, offset);
      ListLeadsEffect(leads, status, limit, offset);
    }

    /** `update_lead`: the row after the update, looked up by its id, or the error the commit raises. */
    method UpdateLead(id: string, data: State, now: string) returns (r: Result<Option<Record>, DbError>)
      requires Valid() && ValuesShaped(data)
      modifies this
      ensures Valid()
      ensures UpdateAll(old(leads), id, data, now).Err? ==> leads == old(leads) && r == Err(UpdateAll(old(leads), id, data, now).error)
      ensures UpdateAll(old(leads), id, data, now).Ok? ==> leads == UpdateAll(old(leads), id, data, now).value && r == Ok(Find(leads, id))
      ensures usage == old(usage) && emailLogs == old(emailLogs)
    {
      var u := UpdateAll(leads, id, data, now);
      if u.Err? {
        r := Err(u.error);
      } else {
        UpdateAllShape(leads, id, data, now);
        leads := u.value;
        r := Ok(Find(leads, id));
      }
    }

    /** `delete_lead`: whether a row went. */
    method DeleteLead(id: string) returns (deleted: bool)
      requires Valid()
      modifies this
      ensures Valid()
      ensures leads == DeleteRows(old(leads), id)
      ensures deleted <==> exists i :: 0 <= i < |old(leads)| && IdOf(old(leads)[i]) == JStr(id)
      ensures usage == old(usage) && emailLogs == old(emailLogs)
    {
      DeleteRowsEffect(leads, id);
      DeleteKeepsIds(leads, id);
      var before := leads;
      leads := DeleteRows(leads, id);
      deleted := |leads| < |before|;
      forall i | 0 <= i < |leads| ensures LeadShaped(leads[i]) {
        assert leads[i] in before;
      }
    }

    /** `count_leads` */
    method CountLeads(status: Option<string>) returns (n: nat)
      ensures n == LeadTable.CountLeads(leads, status)
      ensures status.None? ==> n == |leads|
    {
      n := |StatusFilter(leads, status)|;
    }

    /** `get_review_queue` */
    method GetReviewQueue() returns (r: seq<Record>)
      ensures r == ReviewQueue(leads)
      ensures Ordering.SortedBy(r, HighestScoreFirst)
    {
      ReviewQueueEffect(leads);
      r := ReviewQueue(leads);
    }

    /** `get_score_distribution` */
    method GetScoreDistribution() returns (r: seq<map<string, Json>>)
      ensures r == ScoreDistribution(leads)
      ensures CountSum(Dist(leads)) == |leads|
    {
      DistTotal(leads);
      r := ScoreDistribution(leads);
    }

    /** `get_status_counts` */
    method GetStatusCounts() returns (r: map<Json, nat>)
      ensures r == StatusCounts(leads)
    {
      r := StatusCounts(leads);
    }

    /** `get_analytics_summary`, without the averages. */
    method GetAnalyticsSummary() returns (r: Summary)
      ensures r == AnalyticsSummary(leads)
      ensures r.totalLeads == |leads| && 0 <= r.accuracy <= 100
    {
      SummaryCounts(leads);
      r := AnalyticsSummary(leads);
    }

    /** `log_email` */
    method LogEmail(data: State, now: string) returns (r: Result<Record, DbError>)
      requires Valid()
      modifies this
      ensures Valid()
      ensures r == InsertEmailLog(data, now)
      ensures emailLogs == if r.Ok? then old(emailLogs) + [r.value] else old(emailLogs)
      ensures leads == old(leads) && usage == old(usage)
    {
      r := InsertEmailLog(data, now);
      if r.Ok? {
        emailLogs := emailLogs + [r.value];
      }
    }

    /** `get_daily_usage`: the (user, today) counters, created with zero counts when missing. */
    method GetDailyUsage(userId: string, today: string) returns (u: UserUsage)
      requires Valid()
      modifies this
      ensures Valid()
      ensures u == UsageOf(old(usage), userId, today)
      ensures usage == old(usage)[(userId, today) := u]
      ensures u.userId == userId && u.date == today
      ensures leads == old(leads) && emailLogs == old(emailLogs)
    {
      if (userId, today) in usage {
        u := usage[(userId, today)];
      } else {
        u := NewUsage(userId, today);
        usage := usage[(userId, today) := u];
      }
    }

    /** `increment_search_count`: one more search for the user today, the upload count untouched. */
    method IncrementSearchCount(userId: string, today: string) returns (u: UserUsage)
      requires Valid()
      modifies this
      ensures Valid()
      ensures u == UsageOf(old(usage), userId, today).(searchCount := UsageOf(old(usage), userId, today).searchCount + 1)
      ensures usage == old(usage)[(userId, today) := u]
      ensures leads == old(leads) && emailLogs == old(emailLogs)
    {
      var current := GetDailyUsage(userId, today);
      u := current.(searchCount := current.searchCount + 1);
      usage := usage[(userId, today) := u];
    }

    /** `increment_csv_count`: one more upload for the user today, the search count untouched. */
    method IncrementCsvCount(userId: string, today: string) returns (u: UserUsage)
      requires Valid()
      modifies this
      ensures Valid()
      ensures u == UsageOf(old(usage), userId, today).(csvCount := UsageOf(old(usage), userId, today).csvCount + 1)
      ensures usage == old(usage)[(userId, today) := u]
      ensures leads == old(leads) && emailLogs == old(emailLogs)
    {
      var current := GetDailyUsage(userId, today);
      u := current.(csvCount := current.csvCount + 1);
      usage := usage[(userId, today) := u];
    }
  }
}
