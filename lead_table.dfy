/**
 * The database operations: the `leads` table as a list of rows in insertion
 * order, the `user_usage` table keyed by user and day, and the `email_logs`
 * table. The queries are functions of the rows; the class holds the tables
 * and its methods change them.
 */
module LeadTable {
  import opened Wrappers
  import opened PyLists
  import opened PyNumbers
  import opened JsonValues
  import opened LeadStates
  import opened LeadRecords
  import opened Ordering

  function IdOf(r: Record): Json { Val(r, "lead_id") }

  /** The primary key: no two rows share a `lead_id`. */
  predicate UniqueIds(rows: seq<Record>) {
    forall i, j :: 0 <= i < j < |rows| ==> IdOf(rows[i]) != IdOf(rows[j])
  }

  /** `select(LeadRecord).where(LeadRecord.lead_id == lead_id)` with `scalar_one_or_none`. */
  function Find(rows: seq<Record>, id: string): (r: Option<Record>)
    ensures r.Some? ==> r.value in rows && IdOf(r.value) == JStr(id)
  {
    if rows == [] then None
    else if IdOf(rows[0]) == JStr(id) then Some(rows[0])
    else Find(rows[1..], id)
  }

  /** A row is found exactly when one has the id, and with unique ids it is that row. */
  lemma {:induction false} FindIff(rows: seq<Record>, id: string)
    ensures Find(rows, id).None? <==> forall i :: 0 <= i < |rows| ==> IdOf(rows[i]) != JStr(id)
    ensures UniqueIds(rows) ==> forall i :: 0 <= i < |rows| && IdOf(rows[i]) == JStr(id) ==> Find(rows, id) == Some(rows[i])
  {
    if rows != [] {
      FindIff(rows[1..], id);
      assert forall i :: 1 <= i < |rows| ==> rows[1..][i - 1] == rows[i];
      if UniqueIds(rows) {
        assert UniqueIds(rows[1..]) by {
          forall i, j | 0 <= i < j < |rows| - 1 ensures IdOf(rows[1..][i]) != IdOf(rows[1..][j]) {
            assert rows[1..][i] == rows[i + 1] && rows[1..][j] == rows[j + 1];
          }
        }
      }
    }
  }

  /** The values `update(...).values(**data)` writes, with `updated_at` always set to the clock's `datetime`. */
  function UpdatedRow(r: Record, data: State, now: string): Record {
    (r + data)["updated_at" := JTime(now)]
  }

  /** `update(LeadRecord).where(LeadRecord.lead_id == lead_id)` */
  function UpdateRows(rows: seq<Record>, id: string, data: State, now: string): (r: seq<Record>)
    ensures |r| == |rows|
  {
    seq(|rows|, i requires 0 <= i < |rows| => if IdOf(rows[i]) == JStr(id) then UpdatedRow(rows[i], data, now) else rows[i])
  }

  /** Only the row with the id changes; it gets every value of `data` and the new `updated_at`, and keeps the rest. */
  lemma UpdateRowsEffect(rows: seq<Record>, id: string, data: State, now: string, i: nat)
    requires i < |rows|
    ensures IdOf(rows[i]) != JStr(id) ==> UpdateRows(rows, id, data, now)[i] == rows[i]
    ensures IdOf(rows[i]) == JStr(id) ==>
      var u := UpdateRows(rows, id, data, now)[i];
      && u.Keys == rows[i].Keys + data.Keys + {"updated_at"}
      && u["updated_at"] == JTime(now)
      && (forall c :: c in data && c != "updated_at" ==> u[c] == data[c])
      && (forall c :: c in rows[i] && c !in data && c != "updated_at" ==> u[c] == rows[i][c])
  {
  }

  /** An update that leaves `lead_id` alone, or sets it to the same id, keeps ids unique and in place. */
  lemma UpdateKeepsIds(rows: seq<Record>, id: string, data: State, now: string)
    requires "lead_id" in data ==> data["lead_id"] == JStr(id)
    ensures forall i :: 0 <= i < |rows| ==> IdOf(UpdateRows(rows, id, data, now)[i]) == IdOf(rows[i])
    ensures UniqueIds(rows) ==> UniqueIds(UpdateRows(rows, id, data, now))
  {
  }

  /** A column the update does not name keeps its value. */
  lemma UpdatedKeeps(r: Record, data: State, now: string, c: string)
    requires c in r && c !in data && c != "updated_at"
    ensures UpdatedRow(r, data, now)[c] == r[c]
  {
  }

  /** A column the update names takes the new value. */
  lemma UpdatedWrites(r: Record, data: State, now: string, c: string)
    requires c in data && c != "updated_at"
    ensures UpdatedRow(r, data, now)[c] == data[c]
  {
  }

  /** An update keeps a row's shape when the values it writes have the column types and leave the NOT NULL columns set. */
  lemma UpdateKeepsShape(r: Record, data: State, now: string)
    requires LeadShaped(r) && data.Keys <= LeadColumns && ValuesShaped(data) && Binds(DateTimeType, Val(data, "created_at"))
    requires Storable(UpdatedRow(r, data, now))
    ensures LeadShaped(UpdatedRow(r, data, now))
  {
  }

  /** The values the queries compare: text or NULL for the id, company name and status, an integer or NULL score. */
  predicate ValuesShaped(data: State) {
    && ("lead_id" in data ==> data["lead_id"].JStr? || data["lead_id"].JNull?)
    && ("company_name" in data ==> data["company_name"].JStr? || data["company_name"].JNull?)
    && ("score" in data ==> data["score"].JInt? || data["score"].JNull?)
    && ("status" in data ==> data["status"].JStr? || data["status"].JNull?)
  }

  /** The primary key and `company_name` are set, as their NOT NULL constraints demand. */
  predicate Storable(r: Record) {
    Val(r, "lead_id").JStr? && Val(r, "company_name").JStr?
  }

  /** The row does not have id `id`. */
  function OtherId(id: string): Record -> bool {
    (r: Record) => IdOf(r) != JStr(id)
  }

  /** `delete(LeadRecord).where(LeadRecord.lead_id == lead_id)` */
  function DeleteRows(rows: seq<Record>, id: string): seq<Record> {
    Select(rows, OtherId(id), Id)
  }

  /** Deleting removes exactly the rows with the id and keeps the others in order. */
  lemma DeleteRowsEffect(rows: seq<Record>, id: string)
    ensures forall i :: 0 <= i < |DeleteRows(rows, id)| ==> IdOf(DeleteRows(rows, id)[i]) != JStr(id)
    ensures forall i :: 0 <= i < |rows| && IdOf(rows[i]) != JStr(id) ==> rows[i] in DeleteRows(rows, id)
    ensures IsSubseq(DeleteRows(rows, id), rows)
    ensures |DeleteRows(rows, id)| < |rows| <==> exists i :: 0 <= i < |rows| && IdOf(rows[i]) == JStr(id)
  {
    var d := DeleteRows(rows, id);
    forall i | 0 <= i < |d| ensures IdOf(d[i]) != JStr(id) {
      SelectKept(rows, OtherId(id), Id, i);
    }
    forall i | 0 <= i < |rows| && IdOf(rows[i]) != JStr(id) ensures rows[i] in d {
      SelectComplete(rows, OtherId(id), Id, i);
    }
    SelectOrdered(rows, OtherId(id), Id);
    MapId(rows);
    var same := (r: Record) => IdOf(r) == JStr(id);
    SelectPartition(rows, same, OtherId(id), Id);
    if exists i :: 0 <= i < |rows| && IdOf(rows[i]) == JStr(id) {
      var i :| 0 <= i < |rows| && IdOf(rows[i]) == JStr(id);
      SelectNonEmpty(rows, same, Id, i);
    } else if |Select(rows, same, Id)| > 0 {
      SelectKept(rows, same, Id, 0);
    }
  }

  /** Deleting keeps the primary key unique. */
  lemma DeleteKeepsIds(rows: seq<Record>, id: string)
    requires UniqueIds(rows)
    ensures UniqueIds(DeleteRows(rows, id))
  {
    var d := DeleteRows(rows, id);
    SelectOrdered(rows, OtherId(id), Id);
    MapId(rows);
    var ix :| Embeds(d, rows, ix);
    forall i, j | 0 <= i < j < |d| ensures IdOf(d[i]) != IdOf(d[j]) {
      assert ix[i] < ix[j];
    }
  }

  /** The row's status is `status`. */
  function HasStatus(status: string): Record -> bool {
    (r: Record) => Val(r, "status") == JStr(status)
  }

  /** The `where(LeadRecord.status == status)` filter, applied only when `if status:` holds. */
  function StatusFilter(rows: seq<Record>, status: Option<string>): seq<Record> {
    if status.Some? && status.value != "" then Select(rows, HasStatus(status.value), Id) else rows
  }

  /** The filter keeps exactly the rows with the status, in order; no status or "" keeps every row. */
  lemma StatusFilterEffect(rows: seq<Record>, status: Option<string>)
    ensures IsSubseq(StatusFilter(rows, status), rows)
    ensures status.Some? && status.value != "" ==>
      (forall i :: 0 <= i < |StatusFilter(rows, status)| ==> Val(StatusFilter(rows, status)[i], "status") == JStr(status.value))
      && (forall i :: 0 <= i < |rows| && Val(rows[i], "status") == JStr(status.value) ==> rows[i] in StatusFilter(rows, status))
    ensures !(status.Some? && status.value != "") ==> StatusFilter(rows, status) == rows
  {
    if status.Some? && status.value != "" {
      var keep := HasStatus(status.value);
      SelectOrdered(rows, keep, Id);
      MapId(rows);
      forall i | 0 <= i < |StatusFilter(rows, status)| ensures Val(StatusFilter(rows, status)[i], "status") == JStr(status.value) {
        SelectKept(rows, keep, Id, i);
      }
      forall i | 0 <= i < |rows| && Val(rows[i], "status") == JStr(status.value) ensures rows[i] in StatusFilter(rows, status) {
        SelectComplete(rows, keep, Id, i);
      }
    } else {
      assert Embeds(rows, rows, seq(|rows|, i => i));
    }
  }

  /** `x` is no older than `y`: timestamps compared by their ISO text, NULL older than any. */
  predicate NoOlder(x: Json, y: Json) {
    !y.JTime? || (x.JTime? && TextLe(y.iso, x.iso))
  }

  /** `order_by(LeadRecord.created_at.desc())`: `a` may come before `b`. */
  predicate NewestFirst(a: Record, b: Record) {
    NoOlder(Val(a, "created_at"), Val(b, "created_at"))
  }

  /** `x` is no lower than `y`: NULL below every integer. */
  predicate NoLower(x: Json, y: Json) {
    !y.JInt? || (x.JInt? && x.i >= y.i)
  }

  /** `order_by(LeadRecord.score.desc())`: `a` may come before `b`. */
  predicate HighestScoreFirst(a: Record, b: Record) {
    NoLower(Val(a, "score"), Val(b, "score"))
  }

  lemma NewestFirstOrders()
    ensures TotalPreorder(NewestFirst)
  {
    forall a: Record, b: Record ensures NewestFirst(a, b) || NewestFirst(b, a) {
      var x, y := Val(a, "created_at"), Val(b, "created_at");
      if x.JTime? && y.JTime? { TextLeTotal(x.iso, y.iso); }
    }
    forall a: Record, b: Record, c: Record | NewestFirst(a, b) && NewestFirst(b, c) ensures NewestFirst(a, c) {
      var x, y, z := Val(a, "created_at"), Val(b, "created_at"), Val(c, "created_at");
      if z.JTime? { TextLeTrans(z.iso, y.iso, x.iso); }
    }
  }

  lemma HighestScoreFirstOrders()
    ensures TotalPreorder(HighestScoreFirst)
  {
  }

  /** The number of rows an SQLite OFFSET skips: a negative offset skips none. */
  function Skipped(offset: int): nat {
    if offset < 0 then 0 else offset
  }

  /**
   * `query.limit(limit).offset(offset)` as SQLite runs it: skip `offset`
   * rows (none when it is negative), then keep at most `limit` of the
   * rest (all of them when `limit` is negative).
   */
  function Page<T>(s: seq<T>, limit: int, offset: int): (r: seq<T>)
    ensures var k := Skipped(offset);
      |r| == if k >= |s| then 0 else if 0 <= limit < |s| - k then limit else |s| - k
    ensures forall i :: 0 <= i < |r| ==> r[i] == s[Skipped(offset) + i]
  {
    var k := Skipped(offset);
    var rest := if k >= |s| then [] else s[k..];
    if 0 <= limit < |rest| then rest[..limit] else rest
  }

  /** `list_leads(status=..., limit=..., offset=...)` */
  function ListLeads(rows: seq<Record>, status: Option<string>, limit: int, offset: int): seq<Record> {
    Page(SortBy(StatusFilter(rows, status), NewestFirst), limit, offset)
  }

  /**
   * The listed rows are newest first, each from the table and with the
   * requested status; the page is the window of all matching rows that
   * starts after the skipped ones and holds at most `limit` of them, so
   * with no rows skipped and no effective limit every matching row is
   * listed, each once.
   */
  lemma ListLeadsEffect(rows: seq<Record>, status: Option<string>, limit: int, offset: int)
    ensures SortedBy(ListLeads(rows, status, limit, offset), NewestFirst)
    ensures forall i :: 0 <= i < |ListLeads(rows, status, limit, offset)| ==>
      ListLeads(rows, status, limit, offset)[i] in multiset(StatusFilter(rows, status))
    ensures |ListLeads(rows, status, limit, offset)| ==
      var n, k := |StatusFilter(rows, status)|, Skipped(offset);
      if k >= n then 0 else if 0 <= limit < n - k then limit else n - k
    ensures offset <= 0 && (limit < 0 || limit >= |StatusFilter(rows, status)|) ==>
      multiset(ListLeads(rows, status, limit, offset)) == multiset(StatusFilter(rows, status))
  {
    var f := StatusFilter(rows, status);
    NewestFirstOrders();
    SortBySorted(f, NewestFirst);
    SortByPerm(f, NewestFirst);
    PageKeeps(SortBy(f, NewestFirst), NewestFirst, limit, offset);
  }

  /** A page of a sorted sequence is sorted, holds only its elements, and is all of it when nothing is cut. */
  lemma PageKeeps<T>(s: seq<T>, le: (T, T) -> bool, limit: int, offset: int)
    requires SortedBy(s, le)
    ensures SortedBy(Page(s, limit, offset), le)
    ensures forall i :: 0 <= i < |Page(s, limit, offset)| ==> Page(s, limit, offset)[i] in multiset(s)
    ensures offset <= 0 && (limit < 0 || limit >= |s|) ==> Page(s, limit, offset) == s
  {
    var page := Page(s, limit, offset);
    var k := Skipped(offset);
    forall i, j | 0 <= i < j < |page| ensures le(page[i], page[j]) {
      assert page[i] == s[k + i] && page[j] == s[k + j];
    }
    forall i | 0 <= i < |page| ensures page[i] in multiset(s) {
      assert page[i] == s[k + i];
    }
  }

  /** `count_leads(status=...)` */
  function CountLeads(rows: seq<Record>, status: Option<string>): nat {
    |StatusFilter(rows, status)|
  }

  /** `get_review_queue` */
  function ReviewQueue(rows: seq<Record>): seq<Record> {
    SortBy(Select(rows, HasStatus("human_review"), Id), HighestScoreFirst)
  }

  /** The queue holds exactly the "human_review" rows, each once, highest score first. */
  lemma ReviewQueueEffect(rows: seq<Record>)
    ensures SortedBy(ReviewQueue(rows), HighestScoreFirst)
    ensures multiset(ReviewQueue(rows)) == multiset(Select(rows, HasStatus("human_review"), Id))
    ensures forall i :: 0 <= i < |ReviewQueue(rows)| ==> Val(ReviewQueue(rows)[i], "status") == JStr("human_review")
    ensures forall i :: 0 <= i < |rows| && Val(rows[i], "status") == JStr("human_review") ==> rows[i] in ReviewQueue(rows)
  {
    var f := Select(rows, HasStatus("human_review"), Id);
    HighestScoreFirstOrders();
    SortBySorted(f, HighestScoreFirst);
    SortByPerm(f, HighestScoreFirst);
    StatusFilterEffect(rows, Some("human_review"));
    forall i | 0 <= i < |ReviewQueue(rows)| ensures Val(ReviewQueue(rows)[i], "status") == JStr("human_review") {
      assert ReviewQueue(rows)[i] in multiset(f);
      var k :| 0 <= k < |f| && f[k] == ReviewQueue(rows)[i];
    }
    forall i | 0 <= i < |rows| && Val(rows[i], "status") == JStr("human_review") ensures rows[i] in ReviewQueue(rows) {
      assert rows[i] in multiset(f);
    }
  }

  /** A row's score as the group-by sees it: an integer, or None for NULL. */
  function ScoreKey(r: Record): Option<int> {
    match Val(r, "score")
    case JInt(i) => Some(i)
    case _ => None
  }

  /** `ORDER BY score` ascending, NULL first as SQLite sorts it. */
  predicate KeyLe(a: Option<int>, b: Option<int>) {
    a.None? || (b.Some? && a.value <= b.value)
  }

  /** The rows whose score is `k`. */
  function WithKey(k: Option<int>): Record -> bool {
    (r: Record) => ScoreKey(r) == k
  }

  /** The rows whose score is not `k`. */
  function OtherKey(k: Option<int>): Record -> bool {
    (r: Record) => ScoreKey(r) != k
  }

  /** `count(lead_id)` for one score group. */
  function KeyCount(rows: seq<Record>, k: Option<int>): nat {
    |Select(rows, WithKey(k), Id)|
  }

  /** The lowest score among the rows. */
  function MinKey(rows: seq<Record>): Option<int>
    requires rows != []
  {
    if |rows| == 1 then ScoreKey(rows[0])
    else
      var m := MinKey(rows[1..]);
      if KeyLe(ScoreKey(rows[0]), m) then ScoreKey(rows[0]) else m
  }

  /** Some row, the one at `i`, has the lowest score. */
  lemma {:induction false} MinKeyAttained(rows: seq<Record>) returns (i: nat)
    requires rows != []
    ensures i < |rows| && ScoreKey(rows[i]) == MinKey(rows)
  {
    if |rows| == 1 {
      i := 0;
    } else if KeyLe(ScoreKey(rows[0]), MinKey(rows[1..])) {
      i := 0;
    } else {
      var m := MinKeyAttained(rows[1..]);
      i := m + 1;
    }
  }

  /** No row has a lower score. */
  lemma {:induction false} MinKeyLeast(rows: seq<Record>, i: nat)
    requires i < |rows|
    ensures KeyLe(MinKey(rows), ScoreKey(rows[i]))
  {
    if |rows| > 1 && i > 0 {
      MinKeyLeast(rows[1..], i - 1);
      assert rows[1..][i - 1] == rows[i];
    }
  }


  /** The groups of `group_by(score).order_by(score)`: each score present, with its row count. */
  function Dist(rows: seq<Record>): seq<(Option<int>, nat)>
    decreases |rows|
  {
    if rows == [] then []
    else
      var k := MinKey(rows);
      var rest := Select(rows, OtherKey(k), Id);
      DistStep(rows, k);
      [(k, KeyCount(rows, k))] + Dist(rest)
  }

  /** The lowest group, then the groups of the rows outside it. */
  lemma DistUnfold(rows: seq<Record>)
    requires rows != []
    ensures Dist(rows) == [(MinKey(rows), KeyCount(rows, MinKey(rows)))] + Dist(Select(rows, OtherKey(MinKey(rows)), Id))
  {
  }

  /** The rows left after the lowest group are fewer, and they make up everything outside it. */
  lemma DistStep(rows: seq<Record>, k: Option<int>)
    requires rows != [] && k == MinKey(rows)
    ensures |Select(rows, OtherKey(k), Id)| + KeyCount(rows, k) == |rows|
    ensures |Select(rows, OtherKey(k), Id)| < |rows|
  {
    SelectPartition(rows, WithKey(k), OtherKey(k), Id);
    var i := MinKeyAttained(rows);
    SelectNonEmpty(rows, WithKey(k), Id, i);
  }

  /** Every score group lists a score some row has: the row at `i`; after the first group, a row outside it. */
  lemma {:induction false} DistKeys(rows: seq<Record>, j: nat) returns (i: nat)
    requires j < |Dist(rows)|
    ensures i < |rows| && ScoreKey(rows[i]) == Dist(rows)[j].0
    ensures j > 0 ==> ScoreKey(rows[i]) != MinKey(rows)
    decreases |rows|
  {
    if j > 0 {
      DistStep(rows, MinKey(rows));
      DistShift(rows, j);
      var m := DistKeys(Select(rows, OtherKey(MinKey(rows)), Id), j - 1);
      i := KeptKey(rows, j, m);
    } else {
      DistHead(rows);
      i := MinKeyAttained(rows);
    }
  }

  /** The row of the rest that lists group `j - 1` there sits at some position of the rows. */
  lemma KeptKey(rows: seq<Record>, j: nat, m: nat) returns (i: nat)
    requires rows != [] && 0 < j < |Dist(rows)|
    requires m < |Select(rows, OtherKey(MinKey(rows)), Id)| && j - 1 < |Dist(Select(rows, OtherKey(MinKey(rows)), Id))|
    requires ScoreKey(Select(rows, OtherKey(MinKey(rows)), Id)[m]) == Dist(Select(rows, OtherKey(MinKey(rows)), Id))[j - 1].0
    ensures i < |rows| && ScoreKey(rows[i]) == Dist(rows)[j].0 && ScoreKey(rows[i]) != MinKey(rows)
  {
    DistShift(rows, j);
    i := KeptIndex(rows, MinKey(rows), m);
  }

  /** Group `j` after the first is group `j - 1` of the rows outside the first. */
  lemma DistShift(rows: seq<Record>, j: nat)
    requires rows != [] && 0 < j < |Dist(rows)|
    ensures j - 1 < |Dist(Select(rows, OtherKey(MinKey(rows)), Id))|
    ensures Dist(rows)[j] == Dist(Select(rows, OtherKey(MinKey(rows)), Id))[j - 1]
  {
    DistUnfold(rows);
  }

  /** A row left outside group `k` is at some position `i` of the rows. */
  lemma KeptIndex(rows: seq<Record>, k: Option<int>, m: nat) returns (i: nat)
    requires m < |Select(rows, OtherKey(k), Id)|
    ensures i < |rows| && Select(rows, OtherKey(k), Id)[m] == rows[i] && ScoreKey(rows[i]) != k
  {
    SelectKept(rows, OtherKey(k), Id, m);
    i :| 0 <= i < |rows| && OtherKey(k)(rows[i]) && Select(rows, OtherKey(k), Id)[m] == Id(rows[i]);
  }

  /** The group counts add up to the number of rows. */
  lemma {:induction false} DistTotal(rows: seq<Record>)
    ensures CountSum(Dist(rows)) == |rows|
    decreases |rows|
  {
    if rows != [] {
      var k := MinKey(rows);
      var rest := Select(rows, OtherKey(k), Id);
      DistStep(rows, k);
      DistTotal(rest);
      CountSumCons((k, KeyCount(rows, k)), Dist(rest));
    }
  }

  function CountSum(d: seq<(Option<int>, nat)>): nat {
    if d == [] then 0 else CountSum(d[..|d| - 1]) + d[|d| - 1].1
  }

  lemma {:induction false} CountSumCons(e: (Option<int>, nat), d: seq<(Option<int>, nat)>)
    ensures CountSum([e] + d) == e.1 + CountSum(d)
    decreases |d|
  {
    if d != [] {
      CountSumCons(e, d[..|d| - 1]);
      assert ([e] + d)[..|d|] == [e] + d[..|d| - 1];
    }
  }

  /** Each group after the first has a score above the first's, and counts the same rows as among all rows. */
  lemma DistTail(rows: seq<Record>, j: nat)
    requires rows != [] && 0 < j < |Dist(rows)|
    ensures KeyLe(MinKey(rows), Dist(rows)[j].0) && MinKey(rows) != Dist(rows)[j].0
    ensures Dist(rows)[j] == Dist(Select(rows, OtherKey(MinKey(rows)), Id))[j - 1]
    ensures KeyCount(Select(rows, OtherKey(MinKey(rows)), Id), Dist(rows)[j].0) == KeyCount(rows, Dist(rows)[j].0)
  {
    var i := DistKeys(rows, j);
    MinKeyLeast(rows, i);
    DistUnfold(rows);
    SelectWithin(rows, WithKey(Dist(rows)[j].0), OtherKey(MinKey(rows)), Id);
  }

  /** The groups are in strictly ascending score order, NULL first. */
  lemma {:induction false} DistAscending(rows: seq<Record>)
    ensures forall i, j :: 0 <= i < j < |Dist(rows)| ==> KeyLe(Dist(rows)[i].0, Dist(rows)[j].0) && Dist(rows)[i].0 != Dist(rows)[j].0
    decreases |rows|
  {
    if rows != [] {
      var k := MinKey(rows);
      var rest := Select(rows, OtherKey(k), Id);
      DistStep(rows, k);
      DistAscending(rest);
      var d := Dist(rows);
      forall i, j | 0 <= i < j < |d| ensures KeyLe(d[i].0, d[j].0) && d[i].0 != d[j].0 {
        DistTail(rows, j);
        if i > 0 { DistTail(rows, i); }
      }
    }
  }

  /** The first group is the lowest score, with a positive count. */
  lemma DistHead(rows: seq<Record>)
    requires rows != []
    ensures Dist(rows)[0] == (MinKey(rows), KeyCount(rows, MinKey(rows))) && KeyCount(rows, MinKey(rows)) > 0
  {
    var k := MinKey(rows);
    var i0 := MinKeyAttained(rows);
    SelectNonEmpty(rows, WithKey(k), Id, i0);
  }

  /** Each group's count is the number of rows with its score, and is positive. */
  lemma {:induction false} DistCounts(rows: seq<Record>)
    ensures forall j :: 0 <= j < |Dist(rows)| ==> Dist(rows)[j].1 == KeyCount(rows, Dist(rows)[j].0) > 0
    decreases |rows|
  {
    if rows != [] {
      var k := MinKey(rows);
      var rest := Select(rows, OtherKey(k), Id);
      DistStep(rows, k);
      DistCounts(rest);
      var d := Dist(rows);
      forall j | 0 < j < |d| ensures d[j].1 == KeyCount(rows, d[j].0) > 0 {
        DistTail(rows, j);
      }
      DistHead(rows);
    }
  }

  /** Every score a row has is listed, as group `j`. */
  lemma {:induction false} DistCovers(rows: seq<Record>, i: nat) returns (j: nat)
    requires i < |rows|
    ensures j < |Dist(rows)| && Dist(rows)[j].0 == ScoreKey(rows[i])
    decreases |rows|
  {
    var k := MinKey(rows);
    var rest := Select(rows, OtherKey(k), Id);
    DistStep(rows, k);
    if ScoreKey(rows[i]) != k {
      var m := RestIndex(rows, k, i);
      var j' := DistCovers(rest, m);
      DistUnfold(rows);
      j := j' + 1;
    } else {
      j := 0;
    }
  }

  /** A row outside group `k` is at some position `m` of the rows left outside it. */
  lemma RestIndex(rows: seq<Record>, k: Option<int>, i: nat) returns (m: nat)
    requires i < |rows| && ScoreKey(rows[i]) != k
    ensures m < |Select(rows, OtherKey(k), Id)| && Select(rows, OtherKey(k), Id)[m] == rows[i]
  {
    SelectComplete(rows, OtherKey(k), Id, i);
    m :| 0 <= m < |Select(rows, OtherKey(k), Id)| && Select(rows, OtherKey(k), Id)[m] == rows[i];
  }


  /** `{"score": ..., "count": ...}` for one group; a NULL score is None. */
  function GroupDict(g: (Option<int>, nat)): (d: map<string, Json>)
    ensures d.Keys == {"score", "count"} && d["count"] == JInt(g.1)
    ensures d["score"] == if g.0.Some? then JInt(g.0.value) else JNull
  {
    map["score" := (if g.0.Some? then JInt(g.0.value) else JNull), "count" := JInt(g.1)]
  }

  /** `get_score_distribution` */
  function ScoreDistribution(rows: seq<Record>): seq<map<string, Json>> {
    MapSeq(Dist(rows), GroupDict)
  }

  /** The statuses the rows have; NULL is one of them when a row has none. */
  function Statuses(rows: seq<Record>): set<Json> {
    set i | 0 <= i < |rows| :: Val(rows[i], "status")
  }

  /** The rows whose status column holds `v`. */
  function StatusIs(v: Json): Record -> bool {
    (r: Record) => Val(r, "status") == v
  }

  /** `get_status_counts`: each status present, with its row count. */
  function StatusCounts(rows: seq<Record>): map<Json, nat> {
    map v | v in Statuses(rows) :: |Select(rows, StatusIs(v), Id)|
  }

  /** A status is counted exactly when some row has it, and its count is the rows with it, i.e. `count_leads(status=...)`. */
  lemma StatusCountsEffect(rows: seq<Record>, v: Json)
    ensures v in StatusCounts(rows) <==> exists i :: 0 <= i < |rows| && Val(rows[i], "status") == v
    ensures v in StatusCounts(rows) ==> StatusCounts(rows)[v] > 0
    ensures v.JStr? && v.s != "" ==> GetCount(StatusCounts(rows), v.s) == CountLeads(rows, Some(v.s))
  {
    if exists i :: 0 <= i < |rows| && Val(rows[i], "status") == v {
      var i :| 0 <= i < |rows| && Val(rows[i], "status") == v;
      assert v in Statuses(rows);
      SelectNonEmpty(rows, StatusIs(v), Id, i);
    } else if v.JStr? && |Select(rows, StatusIs(v), Id)| > 0 {
      SelectKept(rows, StatusIs(v), Id, 0);
    }
    if v.JStr? && v.s != "" {
      assert HasStatus(v.s) == StatusIs(v);
    }
  }

  /** `status_counts.get(status, 0)` */
  function GetCount(counts: map<Json, nat>, status: string): nat {
    if JStr(status) in counts then counts[JStr(status)] else 0
  }

  /** `get_analytics_summary`, without the two averages. */
  datatype Summary = Summary(
    totalLeads: nat, statusCounts: map<Json, nat>, qualified: nat, pendingReview: nat, rejected: nat, accuracy: int)

  /** Leads that reached a score: drafted, in review, approved or sent. */
  function ScoredCount(rows: seq<Record>): nat {
    CountLeads(rows, Some("drafting_complete")) + CountLeads(rows, Some("human_review"))
      + CountLeads(rows, Some("approved")) + CountLeads(rows, Some("sent"))
  }

  /** Leads that failed or were rejected. */
  function FailedCount(rows: seq<Record>): nat {
    CountLeads(rows, Some("failed")) + CountLeads(rows, Some("rejected"))
  }

  /** `round((scored / max(scored + failed, 1)) * 100)`, with exact division. */
  function Accuracy(scored: nat, failed: nat): (a: int)
    ensures 0 <= a <= 100
    ensures scored == 0 ==> a == 0
    ensures failed == 0 && scored > 0 ==> a == 100
  {
    var d := if scored + failed > 1 then scored + failed else 1;
    Ratio(scored, d);
    RoundHalfEven((scored as real / d as real) * 100.0)
  }

  lemma Ratio(n: nat, d: nat)
    requires 0 < d && n <= d
    ensures 0.0 <= (n as real / d as real) * 100.0 <= 100.0
    ensures n == d ==> (n as real / d as real) * 100.0 == 100.0
  {
  }

  function AnalyticsSummary(rows: seq<Record>): (r: Summary) {
    var counts := StatusCounts(rows);
    Summary(CountLeads(rows, None), counts,
            GetCount(counts, "sent") + GetCount(counts, "approved"),
            GetCount(counts, "human_review"), GetCount(counts, "rejected"),
            Accuracy(ScoredCount(rows), FailedCount(rows)))
  }

  /** Rows whose status is one of the two. */
  function StatusIn2(a: string, b: string): Record -> bool {
    (r: Record) => Val(r, "status") == JStr(a) || Val(r, "status") == JStr(b)
  }

  /** Rows whose status is one of the four scored ones. */
  function StatusIn4(a: string, b: string, c: string, d: string): Record -> bool {
    (r: Record) => Val(r, "status") == JStr(a) || Val(r, "status") == JStr(b) || Val(r, "status") == JStr(c) || Val(r, "status") == JStr(d)
  }

  /** Rows whose status is one of the six outcome statuses. */
  function Decided(): Record -> bool {
    (r: Record) =>
      var v := Val(r, "status");
      v == JStr("drafting_complete") || v == JStr("human_review") || v == JStr("approved") || v == JStr("sent")
      || v == JStr("failed") || v == JStr("rejected")
  }

  /** Counting two distinct statuses together counts each of their rows once. */
  lemma Count2(rows: seq<Record>, a: string, b: string)
    requires a != b && a != "" && b != ""
    ensures |Select(rows, StatusIn2(a, b), Id)| == CountLeads(rows, Some(a)) + CountLeads(rows, Some(b))
  {
    SelectSplit(rows, HasStatus(a), HasStatus(b), StatusIn2(a, b), Id);
  }

  /** Counting four distinct statuses together counts each of their rows once. */
  lemma Count4(rows: seq<Record>, a: string, b: string, c: string, d: string)
    requires a != "" && b != "" && c != "" && d != ""
    requires a != b && a != c && a != d && b != c && b != d && c != d
    ensures |Select(rows, StatusIn4(a, b, c, d), Id)|
      == CountLeads(rows, Some(a)) + CountLeads(rows, Some(b)) + CountLeads(rows, Some(c)) + CountLeads(rows, Some(d))
  {
    Count2(rows, a, b);
    Count2(rows, c, d);
    SelectSplit(rows, StatusIn2(a, b), StatusIn2(c, d), StatusIn4(a, b, c, d), Id);
  }

  /** A lead is scored or failed at most once: the two counts together are at most the total. */
  lemma ScoredFailedBound(rows: seq<Record>)
    ensures ScoredCount(rows) + FailedCount(rows) <= |rows|
  {
    var four := StatusIn4("drafting_complete", "human_review", "approved", "sent");
    var two := StatusIn2("failed", "rejected");
    Count4(rows, "drafting_complete", "human_review", "approved", "sent");
    Count2(rows, "failed", "rejected");
    forall x: Record ensures Decided()(x) == (four(x) || two(x)) && !(four(x) && two(x)) {
      assert "rejected" != "approved" by { assert "rejected"[0] != "approved"[0]; }
    }
    SelectSplit(rows, four, two, Decided(), Id);
  }

  /** The summary's counts are the `count_leads` of their statuses. */
  lemma SummaryCounts(rows: seq<Record>)
    ensures AnalyticsSummary(rows).totalLeads == |rows|
    ensures AnalyticsSummary(rows).qualified == CountLeads(rows, Some("sent")) + CountLeads(rows, Some("approved"))
    ensures AnalyticsSummary(rows).pendingReview == CountLeads(rows, Some("human_review"))
    ensures AnalyticsSummary(rows).rejected == CountLeads(rows, Some("rejected"))
    ensures AnalyticsSummary(rows).accuracy == Accuracy(ScoredCount(rows), FailedCount(rows))
  {
    StatusCountsEffect(rows, JStr("sent"));
    StatusCountsEffect(rows, JStr("approved"));
    StatusCountsEffect(rows, JStr("human_review"));
    StatusCountsEffect(rows, JStr("rejected"));
  }

  /** No lead is counted in two of qualified, pending review and rejected. */
  lemma SummaryDisjoint(rows: seq<Record>)
    ensures AnalyticsSummary(rows).qualified + AnalyticsSummary(rows).pendingReview + AnalyticsSummary(rows).rejected <= |rows|
  {
    SummaryCounts(rows);
    Count4(rows, "sent", "approved", "human_review", "rejected");
  }
}
