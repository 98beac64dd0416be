/**
 * `csv.DictReader` over the records the CSV tokenizer yields: the first
 * record names the fields, empty records are skipped, and every other
 * record becomes a dictionary from field name to cell, built as
 * `dict(zip(fieldnames, row))` and then completed or extended.
 */
module CsvReader {
  import opened Wrappers

  /** A dictionary entry: a field name and its cell, None where the record ran out of cells (`restval`). */
  type Cell = (string, Option<string>)

  /**
   * A row as `DictReader` yields it: the dictionary's entries in insertion
   * order, and the cells past the last field name, which it stores as a
   * list under the key None (`restkey`); `rest` is empty when there are none.
   */
  datatype DictRow = DictRow(cells: seq<Cell>, rest: seq<string>)

  /** No two entries share a key, as in a dictionary. */
  predicate DistinctKeys(cells: seq<Cell>) {
    forall i, j :: 0 <= i < j < |cells| ==> cells[i].0 != cells[j].0
  }

  /** The position of key `k` among the entries, if it is there. */
  function Find(cells: seq<Cell>, k: string): (r: Option<nat>)
    ensures r.Some? ==> r.value < |cells| && cells[r.value].0 == k
    ensures r.None? ==> forall i :: 0 <= i < |cells| ==> cells[i].0 != k
  {
    if cells == [] then None
    else if cells[0].0 == k then Some(0)
    else match Find(cells[1..], k)
      case None => None
      case Some(i) => Some(i + 1)
  }

  /** `d[k] = v`: an existing key keeps its position and takes the new value; a new key goes last. */
  function Put(cells: seq<Cell>, k: string, v: Option<string>): (r: seq<Cell>)
    requires DistinctKeys(cells)
    ensures DistinctKeys(r)
    ensures Find(cells, k).Some? ==> r == cells[Find(cells, k).value := (k, v)]
    ensures Find(cells, k).None? ==> r == cells + [(k, v)]
  {
    match Find(cells, k)
    case Some(i) => cells[i := (k, v)]
    case None => cells + [(k, v)]
  }

  /** The cell the record has at position `i`, or `restval` (None) past its end. */
  function CellAt(record: seq<string>, i: nat): Option<string> {
    if i < |record| then Some(record[i]) else None
  }

  /**
   * The entries for the first `n` field names, in field order: `zip` pairs
   * each name with its cell, and the names past the record's end are then
   * set to None, so each name's last position decides its value.
   */
  function Fill(header: seq<string>, record: seq<string>, n: nat): (r: seq<Cell>)
    requires n <= |header|
    ensures DistinctKeys(r)
  {
    if n == 0 then [] else Put(Fill(header, record, n - 1), header[n - 1], CellAt(record, n - 1))
  }

  /** The dictionary `DictReader` builds for one non-empty record. */
  function ReadRow(header: seq<string>, record: seq<string>): DictRow {
    DictRow(Fill(header, record, |header|), if |header| < |record| then record[|header|..] else [])
  }

  /** The rows yielded for the records after the header: empty records are skipped. */
  function ReadBody(header: seq<string>, body: seq<seq<string>>): (r: seq<DictRow>)
    ensures |r| <= |body|
  {
    if body == [] then []
    else if body[0] == [] then ReadBody(header, body[1..])
    else [ReadRow(header, body[0])] + ReadBody(header, body[1..])
  }

  /** Every row the reader yields; a file with no record yields none. */
  function DictRows(records: seq<seq<string>>): seq<DictRow> {
    if records == [] then [] else ReadBody(records[0], records[1..])
  }

  /** The position of the last occurrence of `k` in `s`, or -1. */
  function LastIndex(s: seq<string>, k: string): (r: int)
    ensures -1 <= r < |s|
    ensures r == -1 <==> k !in s
    ensures r >= 0 ==> s[r] == k && forall j :: r < j < |s| ==> s[j] != k
  {
    if s == [] then -1 else if s[|s| - 1] == k then |s| - 1 else LastIndex(s[..|s| - 1], k)
  }

  /** The position of the first occurrence of `k` in `s`, or -1. */
  function FirstIndex(s: seq<string>, k: string): (r: int)
    ensures -1 <= r < |s|
    ensures r == -1 <==> k !in s
    ensures r >= 0 ==> s[r] == k && forall j :: 0 <= j < r ==> s[j] != k
  {
    if s == [] then -1
    else
      var f := FirstIndex(s[..|s| - 1], k);
      if f >= 0 then f else if s[|s| - 1] == k then |s| - 1 else -1
  }

  /** What the first `n` field names have built: the names once each, in first-occurrence order, with their last cells. */
  predicate Built(header: seq<string>, record: seq<string>, n: nat, cells: seq<Cell>)
    requires n <= |header|
  {
    var h := header[..n];
    && (forall i :: 0 <= i < |cells| ==> cells[i].0 in h && cells[i].1 == CellAt(record, LastIndex(h, cells[i].0)))
    && (forall j :: 0 <= j < n ==> Find(cells, header[j]).Some?)
    && (forall p, q :: 0 <= p < q < |cells| ==> FirstIndex(h, cells[p].0) < FirstIndex(h, cells[q].0))
  }

  /** One more field name keeps the other names' first and last positions. */
  lemma IndexStep(header: seq<string>, n: nat, k: string)
    requires n < |header|
    ensures header[..n + 1][..n] == header[..n]
    ensures k != header[n] ==> LastIndex(header[..n + 1], k) == LastIndex(header[..n], k)
    ensures k in header[..n] ==> FirstIndex(header[..n + 1], k) == FirstIndex(header[..n], k)
    ensures k !in header[..n] && k == header[n] ==> FirstIndex(header[..n + 1], k) == n
    ensures LastIndex(header[..n + 1], header[n]) == n
  {
    assert header[..n + 1][..n] == header[..n];
  }

  /** Each step of the fill keeps what the names so far have built. */
  lemma {:induction false} FillBuilt(header: seq<string>, record: seq<string>, n: nat)
    requires n <= |header|
    ensures Built(header, record, n, Fill(header, record, n))
  {
    if n > 0 {
      FillBuilt(header, record, n - 1);
      BuiltPut(header, record, n - 1, Fill(header, record, n - 1));
    }
  }

  /** Setting the next field name's cell keeps what the names so far have built. */
  lemma BuiltPut(header: seq<string>, record: seq<string>, m: nat, d: seq<Cell>)
    requires m < |header| && DistinctKeys(d) && Built(header, record, m, d)
    ensures Built(header, record, m + 1, Put(d, header[m], CellAt(record, m)))
  {
    match Find(d, header[m])
    case Some(at) => BuiltReplace(header, record, m, d, at);
    case None => BuiltAppend(header, record, m, d);
  }

  /** A repeated field name keeps its entry's position and takes the cell at the new position. */
  lemma BuiltReplace(header: seq<string>, record: seq<string>, m: nat, d: seq<Cell>, at: nat)
    requires m < |header| && DistinctKeys(d) && Built(header, record, m, d)
    requires Find(d, header[m]) == Some(at)
    ensures Built(header, record, m + 1, d[at := (header[m], CellAt(record, m))])
  {
    ReplaceCells(header, record, m, d, at);
    ReplaceFinds(header, record, m, d, at);
    ReplaceOrder(header, record, m, d, at);
  }

  /** After a repeated header overwrites its cell, every cell holds the last value under its key. */
  lemma ReplaceCells(header: seq<string>, record: seq<string>, m: nat, d: seq<Cell>, at: nat)
    requires m < |header| && DistinctKeys(d) && Built(header, record, m, d)
    requires Find(d, header[m]) == Some(at)
    ensures var d' := d[at := (header[m], CellAt(record, m))];
      forall i :: 0 <= i < |d'| ==> d'[i].0 in header[..m + 1] && d'[i].1 == CellAt(record, LastIndex(header[..m + 1], d'[i].0))
  {
    var d' := d[at := (header[m], CellAt(record, m))];
    IndexStep(header, m, header[m]);
    forall i | 0 <= i < |d'| ensures d'[i].0 in header[..m + 1] && d'[i].1 == CellAt(record, LastIndex(header[..m + 1], d'[i].0)) {
      if i != at {
        IndexStep(header, m, d[i].0);
        assert d[i].0 in header[..m];
      }
    }
  }

  /** After a repeated header overwrites its cell, every header read so far still has a cell. */
  lemma ReplaceFinds(header: seq<string>, record: seq<string>, m: nat, d: seq<Cell>, at: nat)
    requires m < |header| && DistinctKeys(d) && Built(header, record, m, d)
    requires Find(d, header[m]) == Some(at)
    ensures var d' := d[at := (header[m], CellAt(record, m))];
      forall j :: 0 <= j < m + 1 ==> Find(d', header[j]).Some?
  {
    var d' := d[at := (header[m], CellAt(record, m))];
    forall j | 0 <= j < m + 1 ensures Find(d', header[j]).Some? {
      if j < m {
        var i := Find(d, header[j]).value;
        assert d'[i].0 == d[i].0;
      } else {
        assert d'[at].0 == header[j];
      }
    }
  }

  /** Overwriting a cell in place keeps the cells in first-seen header order. */
  lemma ReplaceOrder(header: seq<string>, record: seq<string>, m: nat, d: seq<Cell>, at: nat)
    requires m < |header| && DistinctKeys(d) && Built(header, record, m, d)
    requires Find(d, header[m]) == Some(at)
    ensures var d' := d[at := (header[m], CellAt(record, m))];
      forall p, q :: 0 <= p < q < |d'| ==> FirstIndex(header[..m + 1], d'[p].0) < FirstIndex(header[..m + 1], d'[q].0)
  {
    var d' := d[at := (header[m], CellAt(record, m))];
    forall p, q | 0 <= p < q < |d'| ensures FirstIndex(header[..m + 1], d'[p].0) < FirstIndex(header[..m + 1], d'[q].0) {
      assert d'[p].0 == d[p].0 && d'[q].0 == d[q].0;
      assert d[p].0 in header[..m] && d[q].0 in header[..m];
      IndexStep(header, m, d[p].0);
      IndexStep(header, m, d[q].0);
    }
  }

  /** A new field name goes last, with the cell at its position. */
  lemma BuiltAppend(header: seq<string>, record: seq<string>, m: nat, d: seq<Cell>)
    requires m < |header| && DistinctKeys(d) && Built(header, record, m, d)
    requires Find(d, header[m]).None?
    ensures Built(header, record, m + 1, d + [(header[m], CellAt(record, m))])
  {
    AppendCells(header, record, m, d);
    AppendFinds(header, record, m, d);
    AppendOrder(header, record, m, d);
  }

  /** A name not yet built does not occur among the names so far. */
  lemma AppendIsNew(header: seq<string>, record: seq<string>, m: nat, d: seq<Cell>)
    requires m < |header| && DistinctKeys(d) && Built(header, record, m, d)
    requires Find(d, header[m]).None?
    ensures header[m] !in header[..m]
  {
    forall j | 0 <= j < m ensures header[..m][j] != header[m] {
      assert Find(d, header[j]).Some?;
    }
  }

  /** After a new name is appended, every cell holds the last value under its key. */
  lemma AppendCells(header: seq<string>, record: seq<string>, m: nat, d: seq<Cell>)
    requires m < |header| && DistinctKeys(d) && Built(header, record, m, d)
    requires Find(d, header[m]).None?
    ensures var d' := d + [(header[m], CellAt(record, m))];
      forall i :: 0 <= i < |d'| ==> d'[i].0 in header[..m + 1] && d'[i].1 == CellAt(record, LastIndex(header[..m + 1], d'[i].0))
  {
    var d' := d + [(header[m], CellAt(record, m))];
    IndexStep(header, m, header[m]);
    forall i | 0 <= i < |d'| ensures d'[i].0 in header[..m + 1] && d'[i].1 == CellAt(record, LastIndex(header[..m + 1], d'[i].0)) {
      if i < |d| {
        assert d'[i] == d[i];
        IndexStep(header, m, d[i].0);
        assert d[i].0 in header[..m];
      }
    }
  }

  /** After a new name is appended, every header read so far has a cell. */
  lemma AppendFinds(header: seq<string>, record: seq<string>, m: nat, d: seq<Cell>)
    requires m < |header| && DistinctKeys(d) && Built(header, record, m, d)
    requires Find(d, header[m]).None?
    ensures var d' := d + [(header[m], CellAt(record, m))];
      forall j :: 0 <= j < m + 1 ==> Find(d', header[j]).Some?
  {
    var d' := d + [(header[m], CellAt(record, m))];
    forall j | 0 <= j < m + 1 ensures Find(d', header[j]).Some? {
      if j < m {
        var i := Find(d, header[j]).value;
        assert d'[i] == d[i];
      } else {
        assert d'[|d|].0 == header[j];
      }
    }
  }

  /** The appended name is the last to occur first, so the order by first occurrence is kept. */
  lemma AppendOrder(header: seq<string>, record: seq<string>, m: nat, d: seq<Cell>)
    requires m < |header| && DistinctKeys(d) && Built(header, record, m, d)
    requires Find(d, header[m]).None?
    ensures var d' := d + [(header[m], CellAt(record, m))];
      forall p, q :: 0 <= p < q < |d'| ==> FirstIndex(header[..m + 1], d'[p].0) < FirstIndex(header[..m + 1], d'[q].0)
  {
    var d' := d + [(header[m], CellAt(record, m))];
    AppendIsNew(header, record, m, d);
    IndexStep(header, m, header[m]);
    forall p, q | 0 <= p < q < |d'| ensures FirstIndex(header[..m + 1], d'[p].0) < FirstIndex(header[..m + 1], d'[q].0) {
      assert d'[p] == d[p] && d[p].0 in header[..m];
      IndexStep(header, m, d[p].0);
      if q < |d| {
        assert d'[q] == d[q] && d[q].0 in header[..m];
        IndexStep(header, m, d[q].0);
      }
    }
  }

  /**
   * The dictionary for a record: its keys are the field names, each once,
   * in the order they first appear; each holds the cell at the name's last
   * position, or None when that position is past the record's end; and the
   * cells past the last name are kept apart as the rest.
   */
  lemma ReadRowShape(header: seq<string>, record: seq<string>)
    ensures var row := ReadRow(header, record);
      && DistinctKeys(row.cells)
      && (forall k :: k in header <==> Find(row.cells, k).Some?)
      && (forall i :: 0 <= i < |row.cells| ==>
            row.cells[i].0 in header && row.cells[i].1 == CellAt(record, LastIndex(header, row.cells[i].0)))
      && (forall p, q :: 0 <= p < q < |row.cells| ==> FirstIndex(header, row.cells[p].0) < FirstIndex(header, row.cells[q].0))
      && (row.rest != [] <==> |header| < |record|)
      && (row.rest != [] ==> row.rest == record[|header|..])
  {
    FillBuilt(header, record, |header|);
    assert header[..|header|] == header;
    var cells := ReadRow(header, record).cells;
    forall k | Find(cells, k).Some? ensures k in header {
      assert cells[Find(cells, k).value].0 in header;
    }
  }

  /** The rows are the non-empty records after the header, in order, each read against the header. */
  lemma {:induction false} ReadBodyRows(header: seq<string>, body: seq<seq<string>>, i: nat)
    requires i < |body| && body[i] != []
    ensures ReadRow(header, body[i]) in ReadBody(header, body)
  {
    if i > 0 {
      assert body[1..][i - 1] == body[i];
      ReadBodyRows(header, body[1..], i - 1);
    }
  }

  /** Every yielded row is some non-empty record of the body, read against the header. */
  lemma {:induction false} ReadBodySound(header: seq<string>, body: seq<seq<string>>, n: nat)
    requires n < |ReadBody(header, body)|
    ensures exists i :: 0 <= i < |body| && body[i] != [] && ReadBody(header, body)[n] == ReadRow(header, body[i])
  {
    var tail := body[1..];
    var rows, rest := ReadBody(header, body), ReadBody(header, tail);
    if body[0] == [] {
      assert rows == rest;
      ReadBodySound(header, tail, n);
      var i :| 0 <= i < |tail| && tail[i] != [] && rest[n] == ReadRow(header, tail[i]);
      assert body[i + 1] == tail[i] && rows[n] == ReadRow(header, body[i + 1]);
    } else if n > 0 {
      assert rows == [ReadRow(header, body[0])] + rest && rows[n] == rest[n - 1];
      ReadBodySound(header, tail, n - 1);
      var i :| 0 <= i < |tail| && tail[i] != [] && rest[n - 1] == ReadRow(header, tail[i]);
      assert body[i + 1] == tail[i] && rows[n] == ReadRow(header, body[i + 1]);
    } else {
      assert body[0] != [] && rows[0] == ReadRow(header, body[0]);
    }
  }
}
