/**
 * CSV import: each row of `csv.DictReader` becomes a lead dictionary
 * through a fixed table of header names, and rows without a company name
 * are dropped. A row with more cells than the header raises.
 */
module DataParser {
  import opened Wrappers
  import opened PyStrings
  import opened PyLists
  import opened JsonValues
  import opened LeadStates
  import opened Validators
  import CsvReader

  /** `COLUMN_MAPPINGS`: a lower-cased, trimmed CSV header to the lead key it fills. */
  const ColumnMappings: map<string, string> := map[
    "company" := "company_name",
    "company_name" := "company_name",
    "company name" := "company_name",
    "name" := "company_name",
    "website" := "company_website",
    "company_website" := "company_website",
    "url" := "company_website",
    "domain" := "company_website",
    "contact" := "contact_name",
    "contact_name" := "contact_name",
    "contact name" := "contact_name",
    "person" := "contact_name",
    "email" := "contact_email",
    "contact_email" := "contact_email",
    "contact email" := "contact_email",
    "title" := "contact_title",
    "contact_title" := "contact_title",
    "job_title" := "contact_title",
    "role" := "contact_title",
    "position" := "contact_title"
  ]

  /** The lead keys a CSV column can fill. */
  const MappedFields: set<string> := {"company_name", "company_website", "contact_name", "contact_email", "contact_title"}

  /** The keys every mapped row starts with. */
  const BaseKeys: set<string> := {"lead_id", "source", "status", "score", "confidence", "created_at", "updated_at"}

  /** Every header in the table names one of the five fillable keys. */
  lemma MappingTargets(h: string)
    requires h in ColumnMappings
    ensures ColumnMappings[h] in MappedFields
  {
  }

  /** A dictionary entry of a row: a header and its cell, None past the end of a short record. */
  type Cell = CsvReader.Cell

  /** The entries of a row's dictionary that have a header, in the dictionary's order. */
  type Row = seq<Cell>

  /** What `_map_row` raises: the cells past the header sit under the key None as a list, which has no `strip`. */
  datatype ParseError = AttributeError

  /** `not value or not value.strip()` */
  predicate Blank(value: Option<string>) {
    value.None? || Strip(value.value) == ""
  }

  /** The key and text one cell writes into the lead, if it writes any. */
  function CellWrite(col: string, value: Option<string>): Option<(string, string)> {
    if Blank(value) then None
    else
      var key := Strip(Lower(col));
      if key !in ColumnMappings then None
      else
        var field := ColumnMappings[key];
        var cleaned := Strip(value.value);
        Some((field, if field == "company_website" then NormalizeUrl(cleaned) else cleaned))
  }

  /**
   * The dictionary a row starts from, before any cell is read. `stamp` is
   * the value both timestamps take from one clock reading.
   */
  function BaseLead(leadId: string, stamp: Json): (r: State)
    ensures r.Keys == BaseKeys
  {
    map["lead_id" := JStr(leadId), "source" := JStr("csv"), "status" := JStr("new"),
        "score" := JInt(0), "confidence" := JFloat(0.0), "created_at" := stamp, "updated_at" := stamp]
  }

  /**
   * How a clock reading becomes the timestamps: `_map_row` stores
   * `datetime.now(timezone.utc).isoformat()`, its ISO text, which the
   * DateTime columns refuse; the intended value is the `datetime` itself.
   */
  datatype Stamping = IsoText | DateTime

  /** The value both timestamps of a row take from the clock reading `now`. */
  function Stamp(how: Stamping, now: string): Json {
    match how
    case IsoText => JStr(now)
    case DateTime => JTime(now)
  }

  /** What one cell writes, as the loop body decides it. */
  function Write(cell: Cell): Option<(string, string)> {
    CellWrite(cell.0, cell.1)
  }

  /** The write fills lead key `f`. */
  predicate WritesTo(w: Option<(string, string)>, f: string) {
    w.Some? && w.value.0 == f
  }

  /** The lead after the writes `ws`, in order, have been applied to `lead`. */
  function ApplyWrites(lead: State, ws: seq<Option<(string, string)>>): State {
    if ws == [] then lead
    else
      var before := ApplyWrites(lead, ws[..|ws| - 1]);
      match ws[|ws| - 1]
      case None => before
      case Some(w) => before[w.0 := JStr(w.1)]
  }

  /** What `_map_row` returns for `row`, given the generated id and the clock reading. */
  function MappedRow(row: Row, leadId: string, stamp: Json): State {
    ApplyWrites(BaseLead(leadId, stamp), MapSeq(row, Write))
  }

  lemma ApplyWritesSnoc(lead: State, ws: seq<Option<(string, string)>>, i: nat)
    requires i < |ws|
    ensures ApplyWrites(lead, ws[..i + 1]) ==
      if ws[i].Some? then ApplyWrites(lead, ws[..i])[ws[i].value.0 := JStr(ws[i].value.1)] else ApplyWrites(lead, ws[..i])
  {
    assert ws[..i + 1][..i] == ws[..i];
  }

  /** The cell fills `contact_email` with an address `is_valid_email` refuses. */
  predicate IsBadEmailCell(cell: Cell) {
    WritesTo(Write(cell), "contact_email") && !IsValidEmail(Write(cell).value.1)
  }

  /** The text a cell writes, or "" for a cell that writes nothing. */
  function CellText(cell: Cell): string {
    if Write(cell).Some? then Write(cell).value.1 else ""
  }

  /** The addresses `_map_row` logs as possibly invalid, in row order. */
  function EmailWarnings(row: Row): seq<string> {
    Select(row, IsBadEmailCell, CellText)
  }

  /**
   * The body of `_map_row`'s loop for one cell: what it writes into the
   * lead, if anything, and whether it logs the e-mail warning.
   */
  method ReadCell(csvCol: string, value: Option<string>) returns (w: Option<(string, string)>, warn: bool)
    ensures w == Write((csvCol, value))
    ensures warn <==> IsBadEmailCell((csvCol, value))
  {
    if value.None? || Strip(value.value) == "" {
      return None, false;
    }
    var key := Strip(Lower(csvCol));
    if key !in ColumnMappings {
      return None, false;
    }
    var mappedField := ColumnMappings[key];
    var cleaned := Strip(value.value);
    if mappedField == "company_website" {
      cleaned := NormalizeUrl(cleaned);
    }
    warn := mappedField == "contact_email" && !IsValidEmail(cleaned);
    w := Some((mappedField, cleaned));
  }

  /**
   * `_map_row`: the fixed keys first, then one pass over the dictionary.
   * `leadId` is the generated uuid and `stamp` the clock reading; `warned`
   * lists the addresses the warning is logged for. The header cells come
   * first; the list of extra cells, if any, comes last, and its `strip`
   * raises.
   */
  method MapRow(row: CsvReader.DictRow, leadId: string, stamp: Json) returns (lead: Result<State, ParseError>, warned: seq<string>)
    ensures lead == if row.rest == [] then Ok(MappedRow(row.cells, leadId, stamp)) else Err(AttributeError)
    ensures warned == EmailWarnings(row.cells)
  {
    var cells := row.cells;
    ghost var ws := MapSeq(cells, Write);
    ghost var base := BaseLead(leadId, stamp);
    var built := BaseLead(leadId, stamp);
    warned := [];
    for i := 0 to |cells|
      invariant built == ApplyWrites(base, ws[..i])
      invariant warned == Select(cells[..i], IsBadEmailCell, CellText)
    {
      ApplyWritesSnoc(base, ws, i);
      SelectSnoc(cells, IsBadEmailCell, CellText, i);
      var w, warn := ReadCell(cells[i].0, cells[i].1);
      assert (cells[i].0, cells[i].1) == cells[i];
      assert ws[i] == w && (warn ==> w.value.1 == CellText(cells[i]));
      if warn {
        warned := warned + [w.value.1];
      }
      if w.Some? {
        built := built[w.value.0 := JStr(w.value.1)];
      }
    }
    assert ws[..|cells|] == ws;
    assert cells[..|cells|] == cells;
    if row.rest != [] {
      return Err(AttributeError), warned;
    }
    lead := Ok(built);
  }

  /** A cell writes exactly when its value is not blank and its header is in the table. */
  lemma CellWriteIff(col: string, value: Option<string>)
    ensures CellWrite(col, value).Some? <==> !Blank(value) && Strip(Lower(col)) in ColumnMappings
  {
  }

  /**
   * What a cell writes: one of the five fillable keys, a non-empty text,
   * the trimmed cell for every key but the website, and for the website the
   * normalised URL, which always carries a scheme.
   */
  lemma CellWriteShape(col: string, value: Option<string>)
    requires CellWrite(col, value).Some?
    ensures CellWrite(col, value).value.0 in MappedFields
    ensures CellWrite(col, value).value.0 == ColumnMappings[Strip(Lower(col))]
    ensures CellWrite(col, value).value.1 != ""
    ensures CellWrite(col, value).value.0 != "company_website" ==> CellWrite(col, value).value.1 == Strip(value.value)
    ensures CellWrite(col, value).value.0 != "company_website" ==>
      !IsSpace(Strip(value.value)[0]) && !IsSpace(Strip(value.value)[|Strip(value.value)| - 1])
    ensures CellWrite(col, value).value.0 == "company_website" ==>
      CellWrite(col, value).value.1 == NormalizeUrl(Strip(value.value))
      && (StartsWith(CellWrite(col, value).value.1, "http:") || StartsWith(CellWrite(col, value).value.1, "https:"))
  {
    var key := Strip(Lower(col));
    var field := ColumnMappings[key];
    assert key in ColumnMappings && !Blank(value);
    assert CellWrite(col, value).value == (field, if field == "company_website" then NormalizeUrl(Strip(value.value)) else Strip(value.value));
    MappingTargets(key);
    WrittenValue(field, value.value);
  }

  /** The text a non-blank cell writes to `field`: the trimmed cell, or for the website its normalised URL. */
  lemma WrittenValue(field: string, v: string)
    requires Strip(v) != ""
    ensures var w := if field == "company_website" then NormalizeUrl(Strip(v)) else Strip(v);
      && w != ""
      && (field != "company_website" ==> !IsSpace(Strip(v)[0]) && !IsSpace(Strip(v)[|Strip(v)| - 1]))
      && (field == "company_website" ==> StartsWith(w, "http:") || StartsWith(w, "https:"))
  {
    if field == "company_website" {
      NormalizeUrlKeepsScheme(Strip(v));
    } else {
      StripEnds(v);
    }
  }

  /** Some cell of the row fills lead key `f`. */
  ghost predicate Fills(row: Row, f: string) {
    exists i :: 0 <= i < |row| && WritesTo(Write(row[i]), f)
  }

  /** A key is in the lead when it was there already or some write fills it; otherwise it is unchanged. */
  lemma {:induction false} ApplyWritesKey(lead: State, ws: seq<Option<(string, string)>>, f: string)
    ensures f in ApplyWrites(lead, ws) <==> f in lead || exists i :: 0 <= i < |ws| && WritesTo(ws[i], f)
    ensures (forall i :: 0 <= i < |ws| ==> !WritesTo(ws[i], f)) ==> Val(ApplyWrites(lead, ws), f) == Val(lead, f)
  {
    if ws != [] {
      var init := ws[..|ws| - 1];
      ApplyWritesKey(lead, init, f);
      if exists i :: 0 <= i < |init| && WritesTo(init[i], f) {
        var i :| 0 <= i < |init| && WritesTo(init[i], f);
        assert WritesTo(ws[i], f);
      }
      if exists i :: 0 <= i < |ws| && WritesTo(ws[i], f) {
        var i :| 0 <= i < |ws| && WritesTo(ws[i], f);
        if i < |init| { assert WritesTo(init[i], f); }
      }
    }
  }

  /** The last write to a key decides its value: later duplicates overwrite earlier ones. */
  lemma {:induction false} LastWriteWins(lead: State, ws: seq<Option<(string, string)>>, i: nat, f: string, v: string)
    requires i < |ws| && ws[i] == Some((f, v))
    requires forall j :: i < j < |ws| ==> !WritesTo(ws[j], f)
    ensures f in ApplyWrites(lead, ws) && ApplyWrites(lead, ws)[f] == JStr(v)
  {
    var init := ws[..|ws| - 1];
    if i < |ws| - 1 {
      assert !WritesTo(ws[|ws| - 1], f);
      assert init[i] == ws[i];
      LastWriteWins(lead, init, i, f, v);
    }
  }

  /** Given one write to `f`, the last one. */
  lemma LastWriter(ws: seq<Option<(string, string)>>, f: string, i: nat) returns (last: nat)
    requires i < |ws| && WritesTo(ws[i], f)
    ensures i <= last < |ws| && WritesTo(ws[last], f)
    ensures forall j :: last < j < |ws| ==> !WritesTo(ws[j], f)
    decreases |ws| - i
  {
    if exists j :: i < j < |ws| && WritesTo(ws[j], f) {
      var j :| i < j < |ws| && WritesTo(ws[j], f);
      last := LastWriter(ws, f, j);
    } else {
      last := i;
    }
  }

  /** A blank cell, or one under an unknown header, leaves the lead as it is. */
  lemma IgnoredCell(row: Row, cell: Cell, leadId: string, stamp: Json)
    requires Blank(cell.1) || Strip(Lower(cell.0)) !in ColumnMappings
    ensures MappedRow(row + [cell], leadId, stamp) == MappedRow(row, leadId, stamp)
  {
    var ws := MapSeq(row + [cell], Write);
    assert ws[..|row|] == MapSeq(row, Write);
  }

  /**
   * When the cell at `i` is the last one filling `f`, the mapped row holds
   * what that cell writes under `f`, whatever earlier cells wrote.
   */
  lemma LastCellWins(row: Row, leadId: string, stamp: Json, i: nat)
    requires i < |row| && Write(row[i]).Some?
    requires forall j :: i < j < |row| ==> !WritesTo(Write(row[j]), Write(row[i]).value.0)
    ensures Write(row[i]).value.0 in MappedRow(row, leadId, stamp)
    ensures MappedRow(row, leadId, stamp)[Write(row[i]).value.0] == JStr(Write(row[i]).value.1)
  {
    var ws := MapSeq(row, Write);
    LastWriteWins(BaseLead(leadId, stamp), ws, i, Write(row[i]).value.0, Write(row[i]).value.1);
  }

  /** The mapped row holds only the seven fixed keys and the five fillable ones. */
  lemma MappedRowKeys(row: Row, leadId: string, stamp: Json)
    ensures MappedRow(row, leadId, stamp).Keys <= BaseKeys + MappedFields
  {
    var base := BaseLead(leadId, stamp);
    var ws := MapSeq(row, Write);
    forall k | k in ApplyWrites(base, ws) ensures k in BaseKeys + MappedFields {
      ApplyWritesKey(base, ws, k);
      if k !in base {
        var i :| 0 <= i < |ws| && WritesTo(ws[i], k);
        CellWriteShape(row[i].0, row[i].1);
      }
    }
  }

  /** The fixed keys are all shorter than the fillable ones, so the two sets are disjoint. */
  lemma KeysDisjoint(f: string)
    ensures f in BaseKeys ==> |f| <= 10
    ensures f in MappedFields ==> |f| >= 12
  {
  }

  /** No cell can overwrite one of the seven fixed keys. */
  lemma BaseFieldsKept(row: Row, leadId: string, stamp: Json, f: string)
    requires f in BaseKeys
    ensures f in MappedRow(row, leadId, stamp) && MappedRow(row, leadId, stamp)[f] == BaseLead(leadId, stamp)[f]
  {
    var ws := MapSeq(row, Write);
    forall i | 0 <= i < |ws| ensures !WritesTo(ws[i], f) {
      if ws[i].Some? {
        CellWriteShape(row[i].0, row[i].1);
        KeysDisjoint(f);
        KeysDisjoint(ws[i].value.0);
      }
    }
    ApplyWritesKey(BaseLead(leadId, stamp), ws, f);
  }

  /** A fillable key is in the mapped row exactly when some cell fills it, and then holds a non-empty text. */
  lemma FilledFields(row: Row, leadId: string, stamp: Json, f: string)
    requires f in MappedFields
    ensures f in MappedRow(row, leadId, stamp) <==> Fills(row, f)
    ensures f in MappedRow(row, leadId, stamp) ==> MappedRow(row, leadId, stamp)[f].JStr? && MappedRow(row, leadId, stamp)[f].s != ""
  {
    var base := BaseLead(leadId, stamp);
    var ws := MapSeq(row, Write);
    assert f !in base;
    ApplyWritesKey(base, ws, f);
    if exists i :: 0 <= i < |row| && WritesTo(Write(row[i]), f) {
      var i :| 0 <= i < |row| && WritesTo(Write(row[i]), f);
      assert WritesTo(ws[i], f);
      var last := LastWriter(ws, f, i);
      CellWriteShape(row[last].0, row[last].1);
      LastWriteWins(base, ws, last, f, ws[last].value.1);
    }
  }

  /** Each logged address is invalid, and is what some cell writes as the contact e-mail. */
  lemma EmailWarningsSound(row: Row, n: nat)
    requires n < |EmailWarnings(row)|
    ensures !IsValidEmail(EmailWarnings(row)[n])
    ensures exists k :: 0 <= k < |row| && Write(row[k]) == Some(("contact_email", EmailWarnings(row)[n]))
  {
    SelectKept(row, IsBadEmailCell, CellText, n);
    var k :| 0 <= k < |row| && IsBadEmailCell(row[k]) && EmailWarnings(row)[n] == CellText(row[k]);
    assert Write(row[k]) == Some(("contact_email", EmailWarnings(row)[n]));
  }

  /** Every contact e-mail `is_valid_email` refuses is logged. */
  lemma EmailWarningsComplete(row: Row, k: nat)
    requires k < |row| && WritesTo(Write(row[k]), "contact_email") && !IsValidEmail(CellText(row[k]))
    ensures CellText(row[k]) in EmailWarnings(row)
  {
    SelectComplete(row, IsBadEmailCell, CellText, k);
  }

  /** The row becomes a lead with a company name exactly when some cell fills `company_name`. */
  lemma HasCompanyIff(row: Row, leadId: string, stamp: Json)
    ensures HasCompany(MappedRow(row, leadId, stamp)) <==> Fills(row, "company_name")
  {
    var lead := MappedRow(row, leadId, stamp);
    assert "company_name" in MappedFields;
    FilledFields(row, leadId, stamp, "company_name");
    if "company_name" in lead {
      assert Val(lead, "company_name") == lead["company_name"];
      assert lead["company_name"].JStr? && lead["company_name"].s != "";
      assert Truthy(Val(lead, "company_name"));
      assert HasCompany(lead);
      assert Fills(row, "company_name");
    } else {
      assert Val(lead, "company_name") == JNull;
      assert !HasCompany(lead);
      assert !Fills(row, "company_name");
    }
  }

  /** `lead.get("company_name")` is truthy. */
  predicate HasCompany(lead: State) {
    Has(lead, "company_name")
  }

  /** Each row mapped with its own id and clock reading, the `n`-th row getting `ids(n)` and `clock(n)`. */
  function MappedRows(rows: seq<CsvReader.DictRow>, ids: nat -> string, clock: nat -> string, how: Stamping): (r: seq<State>)
    ensures |r| == |rows| && forall n :: 0 <= n < |rows| ==> r[n] == MappedRow(rows[n].cells, ids(n), Stamp(how, clock(n)))
  {
    seq(|rows|, n requires 0 <= n < |rows| => MappedRow(rows[n].cells, ids(n), Stamp(how, clock(n))))
  }

  /** The mapped rows that have a company name, in row order. */
  function ParsedLeads(rows: seq<CsvReader.DictRow>, ids: nat -> string, clock: nat -> string, how: Stamping): seq<State> {
    Select(MappedRows(rows, ids, clock, how), HasCompany, Id)
  }

  /** Some row has cells past the header. */
  predicate Overlong(rows: seq<CsvReader.DictRow>) {
    exists n :: 0 <= n < |rows| && rows[n].rest != []
  }

  /** A row without extra cells keeps the rows read so far free of them. */
  lemma OverlongStep(rows: seq<CsvReader.DictRow>, n: nat)
    requires n < |rows| && rows[n].rest == [] && !Overlong(rows[..n])
    ensures !Overlong(rows[..n + 1])
  {
    assert forall k :: 0 <= k < n ==> rows[..n + 1][k] == rows[..n][k];
  }

  /** What `parse_csv` returns for the file's records, or the error it raises. */
  function Parsed(records: seq<seq<string>>, ids: nat -> string, clock: nat -> string, how: Stamping): Result<seq<State>, ParseError> {
    var rows := CsvReader.DictRows(records);
    if Overlong(rows) then Err(AttributeError) else Ok(ParsedLeads(rows, ids, clock, how))
  }

  /**
   * `parse_csv` over the file's records (as the CSV tokenizer splits
   * them), with the intended `datetime` stamps. `summary` is the pair of
   * counts its closing log line reports: leads kept and rows read.
   */
  method ParseCsv(records: seq<seq<string>>, ids: nat -> string, clock: nat -> string)
    returns (leads: Result<seq<State>, ParseError>, summary: (nat, nat))
    ensures leads == Parsed(records, ids, clock, DateTime)
    ensures leads.Ok? ==> summary == (|leads.value|, |CsvReader.DictRows(records)|)
  {
    var rows := CsvReader.DictRows(records);
    ghost var mapped := MappedRows(rows, ids, clock, DateTime);
    var kept := [];
    for n := 0 to |rows|
      invariant kept == Select(mapped[..n], HasCompany, Id)
      invariant !Overlong(rows[..n])
    {
      SelectSnoc(mapped, HasCompany, Id, n);
      var lead, _ := MapRow(rows[n], ids(n), Stamp(DateTime, clock(n)));
      if lead.Err? {
        assert rows[n].rest != [] && Overlong(rows);
        return Err(lead.error), (0, 0);
      }
      OverlongStep(rows, n);
      assert lead.value == MappedRow(rows[n].cells, ids(n), Stamp(DateTime, clock(n)));
      assert mapped[n] == lead.value;
      if Has(lead.value, "company_name") {
        kept := kept + [lead.value];
      }
    }
    assert mapped[..|rows|] == mapped;
    assert rows[..|rows|] == rows;
    leads := Ok(kept);
    summary := (|kept|, |rows|);
  }

  /**
   * The leads are mapped rows in their original order, at most one per
   * row, and every one has a company name.
   */
  lemma ParsedLeadsShape(rows: seq<CsvReader.DictRow>, ids: nat -> string, clock: nat -> string, how: Stamping)
    ensures |ParsedLeads(rows, ids, clock, how)| <= |rows|
    ensures IsSubseq(ParsedLeads(rows, ids, clock, how), MappedRows(rows, ids, clock, how))
    ensures forall n :: 0 <= n < |ParsedLeads(rows, ids, clock, how)| ==> HasCompany(ParsedLeads(rows, ids, clock, how)[n])
  {
    var mapped := MappedRows(rows, ids, clock, how);
    SelectOrdered(mapped, HasCompany, Id);
    MapId(mapped);
    forall n | 0 <= n < |ParsedLeads(rows, ids, clock, how)| ensures HasCompany(ParsedLeads(rows, ids, clock, how)[n]) {
      SelectKept(mapped, HasCompany, Id, n);
    }
  }

  /** No row with a company name is dropped. */
  lemma ParsedLeadsComplete(rows: seq<CsvReader.DictRow>, ids: nat -> string, clock: nat -> string, how: Stamping, n: nat)
    requires n < |rows| && Fills(rows[n].cells, "company_name")
    ensures MappedRow(rows[n].cells, ids(n), Stamp(how, clock(n))) in ParsedLeads(rows, ids, clock, how)
  {
    HasCompanyIff(rows[n].cells, ids(n), Stamp(how, clock(n)));
    SelectComplete(MappedRows(rows, ids, clock, how), HasCompany, Id, n);
  }

  /**
   * The closing log line's total as written: `len(list(reader))` after the
   * loop has consumed the reader counts the rows still unread, which is
   * none, so the total is the kept leads again.
   */
  function LoggedTotalAsWritten(rows: seq<CsvReader.DictRow>, consumed: nat, leads: seq<State>): nat
    requires consumed <= |rows|
  {
    |rows[consumed..]| + |leads|
  }

  /** A file whose one row has an empty company cell logs a total of 0 rows; 1 was read. */
  lemma LoggedTotalUndercounts(ids: nat -> string, clock: nat -> string, how: Stamping)
    ensures var rows := [CsvReader.DictRow([("company", Some(""))], [])];
      LoggedTotalAsWritten(rows, |rows|, ParsedLeads(rows, ids, clock, how)) == 0 != |rows|
  {
    var rows := [CsvReader.DictRow([("company", Some(""))], [])];
    var lead := MappedRow(rows[0].cells, ids(0), Stamp(how, clock(0)));
    assert "company_name" in MappedFields;
    FilledFields(rows[0].cells, ids(0), Stamp(how, clock(0)), "company_name");
    assert Blank(Some(""));
    assert Write(rows[0].cells[0]) == None;
    assert !HasCompany(lead);
    assert MappedRows(rows, ids, clock, how) == [lead];
    assert ParsedLeads(rows, ids, clock, how) == Select([lead], HasCompany, Id);
  }
}
