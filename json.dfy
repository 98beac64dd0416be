/**
 * JSON-like Python values: what `json.loads` returns, the contents of the
 * JSON columns, and the `score_breakdown` dictionaries, plus the `datetime`
 * values the database code makes for its timestamp columns. Objects keep
 * their keys in insertion order, as Python dicts do.
 */
module JsonValues {
  import opened Wrappers
  import opened PyStrings

  datatype Json =
    | JNull
    | JBool(b: bool)
    | JInt(i: int)
    | JFloat(r: real)
    | JStr(s: string)
    | JList(items: seq<Json>)
    | JObj(fields: seq<(string, Json)>)
      /** A `datetime`, kept as its `isoformat()` text. */
    | JTime(iso: string)

  type JsonObject = seq<(string, Json)>

  predicate UniqueKeys(o: JsonObject) {
    forall i, j :: 0 <= i < j < |o| ==> o[i].0 != o[j].0
  }

  function Keys(o: JsonObject): (ks: seq<string>)
    ensures |ks| == |o| && forall i :: 0 <= i < |o| ==> ks[i] == o[i].0
  {
    if o == [] then [] else [o[0].0] + Keys(o[1..])
  }

  /** `d.get(k)` */
  function Field(o: JsonObject, k: string): (r: Option<Json>)
    ensures r.None? <==> k !in Keys(o)
  {
    if o == [] then None else if o[0].0 == k then Some(o[0].1) else Field(o[1..], k)
  }

  /** `d.get(k, default)` */
  function FieldOr(o: JsonObject, k: string, default: Json): Json {
    Field(o, k).GetOr(default)
  }

  lemma KeysAppend(o: JsonObject, p: (string, Json))
    ensures Keys(o + [p]) == Keys(o) + [p.0]
  {
    var l, r := Keys(o + [p]), Keys(o) + [p.0];
    assert |l| == |r|;
    forall i | 0 <= i < |l| ensures l[i] == r[i] {
      if i < |o| { assert l[i] == (o + [p])[i].0 == o[i].0; }
    }
  }

  /** Reading a key after one more entry is added at the end. */
  lemma {:induction false} FieldAppend(o: JsonObject, p: (string, Json), k: string)
    ensures Field(o + [p], k) == if k in Keys(o) then Field(o, k) else if p.0 == k then Some(p.1) else None
  {
    if o == [] {
      assert o + [p] == [p] && [p][1..] == [];
    } else {
      assert (o + [p])[0] == o[0] && (o + [p])[1..] == o[1..] + [p];
      assert Keys(o) == [o[0].0] + Keys(o[1..]);
      FieldAppend(o[1..], p, k);
    }
  }

  /** `d[k] = v` for a key `d` already holds: the entry keeps its place. */
  function Replace(o: JsonObject, k: string, v: Json): (r: JsonObject)
    requires k in Keys(o)
    ensures Field(r, k) == Some(v)
    ensures forall k' :: k' != k ==> Field(r, k') == Field(o, k')
    ensures Keys(r) == Keys(o)
  {
    if o[0].0 == k then [(k, v)] + o[1..]
    else
      assert Keys(o) == [o[0].0] + Keys(o[1..]);
      var rest := Replace(o[1..], k, v);
      var r := [o[0]] + rest;
      assert r[0] == o[0] && r[1..] == rest;
      assert Keys(r) == [o[0].0] + Keys(rest);
      r
  }

  /** `d[k] = v`: an existing key keeps its place, a new key goes last. */
  function SetField(o: JsonObject, k: string, v: Json): (r: JsonObject)
    ensures Field(r, k) == Some(v)
    ensures forall k' :: k' != k ==> Field(r, k') == Field(o, k')
    ensures k in Keys(o) ==> Keys(r) == Keys(o)
    ensures k !in Keys(o) ==> Keys(r) == Keys(o) + [k]
  {
    if k in Keys(o) then Replace(o, k, v)
    else
      KeysAppend(o, (k, v));
      FieldAppend(o, (k, v), k);
      assert forall k' :: k' != k ==> Field(o + [(k, v)], k') == Field(o, k') by {
        forall k' | k' != k ensures Field(o + [(k, v)], k') == Field(o, k') {
          FieldAppend(o, (k, v), k');
        }
      }
      o + [(k, v)]
  }

  /** Writing a key never creates a duplicate key. */
  lemma PutKeepsUnique(o: JsonObject, k: string, v: Json)
    requires UniqueKeys(o)
    ensures UniqueKeys(SetField(o, k, v))
  {
    var r := SetField(o, k, v);
    var ko, kr := Keys(o), Keys(r);
    if k !in ko {
      forall i, j | 0 <= i < j < |r| ensures r[i].0 != r[j].0 {
        assert kr[i] == r[i].0 && kr[j] == r[j].0;
        if j == |o| { assert kr[i] == ko[i]; } else { assert kr[i] == ko[i] && kr[j] == ko[j]; }
      }
    } else {
      forall i, j | 0 <= i < j < |r| ensures r[i].0 != r[j].0 {
        assert kr[i] == r[i].0 && kr[j] == r[j].0;
        assert kr[i] == ko[i] && kr[j] == ko[j];
      }
    }
  }

  /** `type(j).__name__` */
  function TypeName(j: Json): string {
    match j
    case JNull => "NoneType"
    case JBool(_) => "bool"
    case JInt(_) => "int"
    case JFloat(_) => "float"
    case JStr(_) => "str"
    case JList(_) => "list"
    case JObj(_) => "dict"
    case JTime(_) => "datetime"
  }

  /** The message of the AttributeError raised by `j.get(...)` on a value that is not a dict. */
  function NoGetError(j: Json): string {
    "'" + TypeName(j) + "' object has no attribute 'get'"
  }

  /** Python truthiness of a JSON value. */
  predicate Truthy(j: Json) {
    match j
    case JNull => false
    case JBool(b) => b
    case JInt(i) => i != 0
    case JFloat(r) => r != 0.0
    case JStr(s) => s != ""
    case JList(items) => items != []
    case JObj(fields) => fields != []
    case JTime(_) => true
  }

  /** The number Python's arithmetic sees in `j` (a bool counts as 0 or 1). */
  function AsNumber(j: Json): Option<real> {
    match j
    case JInt(i) => Some(i as real)
    case JFloat(r) => Some(r)
    case JBool(b) => Some(if b then 1.0 else 0.0)
    case _ => None
  }

  /** Up to `fuel` decimal digits of a fraction in [0, 1). */
  function FracDigits(f: real, fuel: nat): string
    requires 0.0 <= f < 1.0
    decreases fuel
  {
    if fuel == 0 || f == 0.0 then ""
    else
      var d := (f * 10.0).Floor;
      [DigitChar(d)] + FracDigits(f * 10.0 - d as real, fuel - 1)
  }

  /** `repr(float)` for a value with a short decimal expansion: "7.0", "0.25". */
  function FloatStr(r: real): string {
    var a := if r < 0.0 then -r else r;
    var digits := FracDigits(a - a.Floor as real, 17);
    (if r < 0.0 then "-" else "") + NatStr(a.Floor) + "." + (if digits == "" then "0" else digits)
  }

  /** `str(j)` */
  function Show(j: Json): string {
    match j
    case JNull => "None"
    case JBool(b) => if b then "True" else "False"
    case JInt(i) => IntStr(i)
    case JFloat(r) => FloatStr(r)
    case JStr(s) => s
    case JTime(t) => SpaceSeparated(t)
    case _ => Repr(j)
  }

  /** `str(datetime)`: the ISO text with a space between date and time. */
  function SpaceSeparated(t: string): (r: string)
    ensures |r| == |t| && forall i :: 0 <= i < |t| ==> r[i] == if t[i] == 'T' then ' ' else t[i]
  {
    if t == [] then [] else [if t[0] == 'T' then ' ' else t[0]] + SpaceSeparated(t[1..])
  }

  /** `repr(j)`, as `str` shows the elements of a list or dict. */
  function Repr(j: Json): string
    decreases j, 1
  {
    match j
    case JStr(s) => "'" + s + "'"
    case JList(items) =>
      "[" + Join(seq(|items|, i requires 0 <= i < |items| => Repr(items[i])), ", ") + "]"
    case JObj(fields) =>
      "{" + Join(seq(|fields|, i requires 0 <= i < |fields| =>
        assert fields[i].1 < fields[i];
        "'" + fields[i].0 + "': " + Repr(fields[i].1)), ", ") + "}"
    case JNull => "None"
    case JBool(b) => if b then "True" else "False"
    case JInt(i) => IntStr(i)
    case JFloat(r) => FloatStr(r)
    case JTime(t) => SpaceSeparated(t)
  }
}
