/**
 * The scoring step. Each criterion of the rubric is put to the language
 * model; its reply (or the exception raised while getting or reading it)
 * is an input here. The node sums the points, records a breakdown entry
 * per criterion, and combines the model's confidences with how complete
 * the lead's data is.
 */
module ScoringNode {
  import opened Wrappers
  import opened PyStrings
  import opened PyNumbers
  import opened JsonValues
  import opened LeadStates
  import opened ScoringRubrics
  import opened LlmProvider

  /** What one criterion contributes to the aggregate. */
  datatype Outcome =
    | Scored(points: int, confidence: real, entry: Json, line: string)
    | Failed(entry: Json)

  /** `int(x)` of a float: the integer part, rounding toward zero. */
  function Trunc(r: real): (i: int)
    ensures 0.0 <= r ==> i as real <= r < i as real + 1.0
    ensures r < 0.0 ==> i as real - 1.0 < r <= i as real
  {
    if 0.0 <= r then r.Floor else -((-r).Floor)
  }

  /** `int(j)`; the parsing of text is the parameter `parseInt`. */
  function PyInt(j: Json, parseInt: string -> Result<int, string>): (r: Result<int, string>)
    ensures j.JInt? ==> r == Ok(j.i)
    ensures j.JNull? || j.JList? || j.JObj? ==> r.Err?
  {
    match j
    case JInt(i) => Ok(i)
    case JBool(b) => Ok(if b then 1 else 0)
    case JFloat(x) => Ok(Trunc(x))
    case JStr(t) => parseInt(t)
    case _ => Err("int() argument must be a string, a bytes-like object or a real number, not '" + TypeName(j) + "'")
  }

  /** `float(j)`; the parsing of text is the parameter `parseFloat`. */
  function PyFloat(j: Json, parseFloat: string -> Result<real, string>): (r: Result<real, string>)
    ensures j.JFloat? ==> r == Ok(j.r)
    ensures j.JInt? ==> r == Ok(j.i as real)
    ensures j.JNull? || j.JList? || j.JObj? ==> r.Err?
  {
    match j
    case JInt(i) => Ok(i as real)
    case JBool(b) => Ok(if b then 1.0 else 0.0)
    case JFloat(x) => Ok(x)
    case JStr(t) => parseFloat(t)
    case _ => Err("float() argument must be a string or a real number, not '" + TypeName(j) + "'")
  }

  /** A breakdown entry: `{"score", "max", "reasoning", "confidence", "evidence"}`. */
  function Entry(score: int, max: int, reasoning: Json, confidence: real, evidence: Json): Json {
    JObj([("score", JInt(score)), ("max", JInt(max)), ("reasoning", reasoning),
          ("confidence", JFloat(confidence)), ("evidence", evidence)])
  }

  /** An entry of a failed criterion: score 0, confidence 0.0, evidence "scoring failed". */
  predicate FailedEntry(c: Criterion, j: Json) {
    && j.JObj? && |j.fields| == 5
    && j.fields[0] == ("score", JInt(0)) && j.fields[1] == ("max", JInt(c.maxPoints))
    && j.fields[2].0 == "reasoning" && j.fields[3] == ("confidence", JFloat(0.0))
    && j.fields[4] == ("evidence", JStr("scoring failed"))
  }

  /** The entry recorded when scoring a criterion raised `error`. */
  function FailedOutcome(c: Criterion, error: string): Outcome {
    Failed(Entry(0, c.maxPoints, JStr("Error: " + error), 0.0, JStr("scoring failed")))
  }

  /**
   * The `try` block for one criterion. Reading a field of a reply that is
   * not a dict, or an `int`/`float` conversion that fails, raises and lands
   * in the `except` branch like a failed call.
   */
  function Evaluate(c: Criterion, reply: Reply,
                    parseInt: string -> Result<int, string>,
                    parseFloat: string -> Result<real, string>): Outcome
  {
    match reply
    case Raised(e) => FailedOutcome(c, e)
    case Replied(parsed) =>
      if !parsed.JObj? then FailedOutcome(c, NoGetError(parsed))
      else
        var p := parsed.fields;
        match PyInt(FieldOr(p, "score", JInt(0)), parseInt)
        case Err(e) => FailedOutcome(c, e)
        case Ok(n) =>
          var points := if n < c.maxPoints then n else c.maxPoints;
          match PyFloat(FieldOr(p, "confidence", JFloat(0.5)), parseFloat)
          case Err(e) => FailedOutcome(c, e)
          case Ok(conf) =>
            Scored(points, conf,
                   Entry(points, c.maxPoints, FieldOr(p, "reasoning", JStr("")), conf, FieldOr(p, "evidence", JStr(""))),
                   c.name + ": " + IntStr(points) + "/" + IntStr(c.maxPoints) + " — " + Show(FieldOr(p, "reasoning", JStr("N/A"))))
  }

  /**
   * A criterion is scored exactly when the call returned a dict whose score
   * and confidence convert; its points are capped by max_points. Otherwise
   * its entry is the failure entry.
   */
  lemma EvaluateContract(c: Criterion, reply: Reply,
                         parseInt: string -> Result<int, string>,
                         parseFloat: string -> Result<real, string>)
    ensures var o := Evaluate(c, reply, parseInt, parseFloat);
      o.Scored? <==> (reply.Replied? && reply.parsed.JObj?
                      && PyInt(FieldOr(reply.parsed.fields, "score", JInt(0)), parseInt).Ok?
                      && PyFloat(FieldOr(reply.parsed.fields, "confidence", JFloat(0.5)), parseFloat).Ok?)
    ensures var o := Evaluate(c, reply, parseInt, parseFloat);
      o.Scored? ==>
        var p := reply.parsed.fields;
        && o.points <= c.maxPoints
        && (o.points == c.maxPoints || o.points == PyInt(FieldOr(p, "score", JInt(0)), parseInt).value)
        && o.confidence == PyFloat(FieldOr(p, "confidence", JFloat(0.5)), parseFloat).value
        && o.entry == Entry(o.points, c.maxPoints, FieldOr(p, "reasoning", JStr("")), o.confidence, FieldOr(p, "evidence", JStr("")))
    ensures var o := Evaluate(c, reply, parseInt, parseFloat); o.Failed? ==> FailedEntry(c, o.entry)
  {
    if reply.Replied? && reply.parsed.JObj? {
      var p := reply.parsed.fields;
      var n := PyInt(FieldOr(p, "score", JInt(0)), parseInt);
      if n.Ok? {
        var conf := PyFloat(FieldOr(p, "confidence", JFloat(0.5)), parseFloat);
        if conf.Ok? {
          var points := if n.value < c.maxPoints then n.value else c.maxPoints;
          var o := Evaluate(c, reply, parseInt, parseFloat);
          assert o.Scored? && o.points == points && o.confidence == conf.value;
          assert o.entry == Entry(points, c.maxPoints, FieldOr(p, "reasoning", JStr("")), conf.value, FieldOr(p, "evidence", JStr("")));
        } else {
          assert Evaluate(c, reply, parseInt, parseFloat) == FailedOutcome(c, conf.error);
        }
      } else {
        assert Evaluate(c, reply, parseInt, parseFloat) == FailedOutcome(c, n.error);
      }
    }
  }

  /** The outcome of every criterion, in rubric order. */
  function Outcomes(cs: seq<Criterion>, replies: seq<Reply>,
                    parseInt: string -> Result<int, string>,
                    parseFloat: string -> Result<real, string>): (outs: seq<Outcome>)
    requires |replies| == |cs|
    ensures |outs| == |cs| && forall i :: 0 <= i < |cs| ==> outs[i] == Evaluate(cs[i], replies[i], parseInt, parseFloat)
  {
    seq(|cs|, i requires 0 <= i < |cs| => Evaluate(cs[i], replies[i], parseInt, parseFloat))
  }

  function Points(o: Outcome): int {
    if o.Scored? then o.points else 0
  }

  function Signal(o: Outcome): real {
    if o.Scored? then o.confidence else 0.0
  }

  /** `total_score`: the points of the scored criteria. */
  function Total(outs: seq<Outcome>): int {
    if outs == [] then 0 else Total(outs[..|outs| - 1]) + Points(outs[|outs| - 1])
  }

  /** `confidence_signals`: one per criterion, 0.0 for a failed one. */
  function Signals(outs: seq<Outcome>): (r: seq<real>)
    ensures |r| == |outs| && forall i :: 0 <= i < |outs| ==> r[i] == Signal(outs[i])
  {
    seq(|outs|, i requires 0 <= i < |outs| => Signal(outs[i]))
  }

  /** `reasoning_parts`: a line per scored criterion. */
  function Lines(outs: seq<Outcome>): seq<string> {
    if outs == [] then []
    else Lines(outs[..|outs| - 1]) + (if outs[|outs| - 1].Scored? then [outs[|outs| - 1].line] else [])
  }

  /** `score_breakdown`: each criterion's entry written under its name. */
  function Breakdown(cs: seq<Criterion>, outs: seq<Outcome>): JsonObject
    requires |cs| == |outs|
  {
    if outs == [] then []
    else SetField(Breakdown(cs[..|cs| - 1], outs[..|outs| - 1]), cs[|cs| - 1].name, outs[|outs| - 1].entry)
  }

  function SumReal(xs: seq<real>): real {
    if xs == [] then 0.0 else SumReal(xs[..|xs| - 1]) + xs[|xs| - 1]
  }

  /** `avg_confidence`: the mean of the signals, 0.0 when there are none. */
  function Average(xs: seq<real>): real {
    if xs == [] then 0.0 else SumReal(xs) / |xs| as real
  }

  /** `data_completeness`: the share of five research fields that are filled in. */
  function Completeness(s: State): real {
    ((if Has(s, "company_description") then 1 else 0)
     + (if Has(s, "industry") then 1 else 0)
     + (if Has(s, "employee_count") then 1 else 0)
     + (if Has(s, "tech_stack") then 1 else 0)
     + (if Has(s, "buying_signals") then 1 else 0)) as real / 5.0
  }

  /** `final_confidence`: seven parts the criteria's confidence, three parts data completeness. */
  function Blend(avg: real, completeness: real): real {
    avg * 0.7 + completeness * 0.3
  }

  /** Each fold over the first k + 1 criteria extends the fold over the first k. */
  lemma FoldStep(cs: seq<Criterion>, outs: seq<Outcome>, k: nat)
    requires |cs| == |outs| && k < |cs|
    ensures Breakdown(cs[..k + 1], outs[..k + 1]) == SetField(Breakdown(cs[..k], outs[..k]), cs[k].name, outs[k].entry)
    ensures Total(outs[..k + 1]) == Total(outs[..k]) + Points(outs[k])
    ensures Lines(outs[..k + 1]) == Lines(outs[..k]) + (if outs[k].Scored? then [outs[k].line] else [])
    ensures Signals(outs[..k + 1]) == Signals(outs[..k]) + [Signal(outs[k])]
  {
    assert cs[..k + 1][..k] == cs[..k] && outs[..k + 1][..k] == outs[..k];
    var a, b := Signals(outs[..k + 1]), Signals(outs[..k]) + [Signal(outs[k])];
    assert |a| == |b|;
    forall i | 0 <= i < |a| ensures a[i] == b[i] {
      if i < k { assert a[i] == Signal(outs[i]) == b[i]; }
    }
  }

  /** The update `scoring_node` returns once the criteria have the outcomes `outs`. */
  predicate ScoringUpdate(s: State, cs: seq<Criterion>, outs: seq<Outcome>, now: string, u: State)
    requires |cs| == |outs|
  {
    && u.Keys == {"status", "updated_at", "score", "score_breakdown", "scoring_reasoning", "confidence"}
    && u["status"] == JStr("scoring_complete") && u["updated_at"] == JStr(now)
    && u["score"] == JInt(Total(outs))
    && u["score_breakdown"] == JObj(Breakdown(cs, outs))
    && u["scoring_reasoning"] == JStr(Join(Lines(outs), "\n"))
    && u["confidence"] == JFloat(RoundTo2(Blend(Average(Signals(outs)), Completeness(s))))
  }

  /**
   * `scoring_node` for the rubric's criteria, with `replies[i]` what came
   * back for `cs[i]`. The prompt's joins of tech_stack, buying_signals and
   * pain_points need those keys to be lists of text, as LeadState declares.
   */
  method Score(s: State, cs: seq<Criterion>, replies: seq<Reply>,
               parseInt: string -> Result<int, string>,
               parseFloat: string -> Result<real, string>, now: string) returns (u: State)
    requires |replies| == |cs|
    requires OptStrList(s, "tech_stack") && OptStrList(s, "buying_signals") && OptStrList(s, "pain_points")
    ensures ScoringUpdate(s, cs, Outcomes(cs, replies, parseInt, parseFloat), now, u)
  {
    ghost var outs := Outcomes(cs, replies, parseInt, parseFloat);
    var breakdown, total, reasoning, signals := ScoreCriteria(cs, replies, parseInt, parseFloat);
    assert breakdown == Breakdown(cs, outs) && total == Total(outs) && reasoning == Lines(outs) && signals == Signals(outs);
    var avg := Average(signals);
    var finalConfidence := Blend(avg, Completeness(s));
    u := ScoringFields(now, total, breakdown, Join(reasoning, "\n"), RoundTo2(finalConfidence));
  }

  /** The update dict of `scoring_node`, key by key. */
  function ScoringFields(now: string, total: int, breakdown: JsonObject, reasoning: string, confidence: real): (u: State)
    ensures u.Keys == {"status", "updated_at", "score", "score_breakdown", "scoring_reasoning", "confidence"}
    ensures u["status"] == JStr("scoring_complete") && u["updated_at"] == JStr(now)
    ensures u["score"] == JInt(total) && u["score_breakdown"] == JObj(breakdown)
    ensures u["scoring_reasoning"] == JStr(reasoning) && u["confidence"] == JFloat(confidence)
  {
    map["status" := JStr("scoring_complete"),
        "updated_at" := JStr(now),
        "score" := JInt(total),
        "score_breakdown" := JObj(breakdown),
        "scoring_reasoning" := JStr(reasoning),
        "confidence" := JFloat(confidence)]
  }

  /** The loop over the criteria of `scoring_node`. */
  method ScoreCriteria(cs: seq<Criterion>, replies: seq<Reply>,
                       parseInt: string -> Result<int, string>,
                       parseFloat: string -> Result<real, string>)
    returns (breakdown: JsonObject, total: int, reasoning: seq<string>, signals: seq<real>)
    requires |replies| == |cs|
    ensures var outs := Outcomes(cs, replies, parseInt, parseFloat);
      && breakdown == Breakdown(cs, outs) && total == Total(outs)
      && reasoning == Lines(outs) && signals == Signals(outs)
  {
    ghost var outs := Outcomes(cs, replies, parseInt, parseFloat);
    breakdown, total, reasoning, signals := [], 0, [], [];
    var k := 0;
    while k < |cs|
      invariant 0 <= k <= |cs|
      invariant breakdown == Breakdown(cs[..k], outs[..k])
      invariant total == Total(outs[..k])
      invariant reasoning == Lines(outs[..k])
      invariant signals == Signals(outs[..k])
    {
      var o := Evaluate(cs[k], replies[k], parseInt, parseFloat);
      FoldStep(cs, outs, k);
      match o {
        case Scored(points, confidence, entry, line) =>
          breakdown := SetField(breakdown, cs[k].name, entry);
          total := total + points;
          signals := signals + [confidence];
          reasoning := reasoning + [line];
          assert Signal(outs[k]) == confidence && outs[k].line == line;
        case Failed(entry) =>
          breakdown := SetField(breakdown, cs[k].name, entry);
          signals := signals + [0.0];
      }
      k := k + 1;
    }
    assert cs[..k] == cs && outs[..k] == outs;
  }

  // ------------------------------------------------------------ properties

  /** The total never exceeds the criteria's max_points added up. */
  lemma {:induction false} TotalAtMostMax(cs: seq<Criterion>, outs: seq<Outcome>)
    requires |cs| == |outs|
    requires forall i :: 0 <= i < |cs| ==> 0 <= cs[i].maxPoints
    requires forall i :: 0 <= i < |outs| && outs[i].Scored? ==> outs[i].points <= cs[i].maxPoints
    ensures Total(outs) <= SumMaxPoints(cs)
  {
    if outs != [] {
      var n := |outs| - 1;
      assert forall i :: 0 <= i < n ==> outs[..n][i] == outs[i] && cs[..n][i] == cs[i];
      TotalAtMostMax(cs[..n], outs[..n]);
      SumAppend(cs[..n], cs[n]);
      assert cs[..n] + [cs[n]] == cs;
      assert Points(outs[n]) <= cs[n].maxPoints;
    }
  }

  /** `total_score` is at most the rubric's max_total_score. */
  lemma ScoreAtMostMaxTotal(cs: seq<Criterion>, replies: seq<Reply>,
                            parseInt: string -> Result<int, string>,
                            parseFloat: string -> Result<real, string>)
    requires |replies| == |cs| && forall i :: 0 <= i < |cs| ==> ValidCriterion(cs[i])
    ensures Total(Outcomes(cs, replies, parseInt, parseFloat)) <= SumMaxPoints(cs)
  {
    var outs := Outcomes(cs, replies, parseInt, parseFloat);
    forall i | 0 <= i < |outs| && outs[i].Scored? ensures outs[i].points <= cs[i].maxPoints {
      EvaluateContract(cs[i], replies[i], parseInt, parseFloat);
    }
    TotalAtMostMax(cs, outs);
  }

  predicate DistinctNames(cs: seq<Criterion>) {
    forall i, j :: 0 <= i < j < |cs| ==> cs[i].name != cs[j].name
  }

  /** The "score" written in a breakdown entry. */
  function EntryScore(j: Json): int {
    if j.JObj? then (match FieldOr(j.fields, "score", JInt(0)) case JInt(i) => i case _ => 0) else 0
  }

  /** The scores of a breakdown, added up. */
  function BreakdownScore(o: JsonObject): int {
    if o == [] then 0 else BreakdownScore(o[..|o| - 1]) + EntryScore(o[|o| - 1].1)
  }

  function Names(cs: seq<Criterion>): (r: seq<string>)
    ensures |r| == |cs| && forall i :: 0 <= i < |cs| ==> r[i] == cs[i].name
  {
    seq(|cs|, i requires 0 <= i < |cs| => cs[i].name)
  }

  lemma NamesAppend(cs: seq<Criterion>, n: nat)
    requires n < |cs| && n == |cs| - 1
    ensures Names(cs[..n]) + [cs[n].name] == Names(cs)
  {
    var l, r := Names(cs[..n]) + [cs[n].name], Names(cs);
    forall i | 0 <= i < |l| ensures l[i] == r[i] {
      if i < n { assert l[i] == cs[..n][i].name; }
    }
  }

  /** Every entry records the points its criterion added to the total. */
  lemma EntryRecordsPoints(c: Criterion, reply: Reply,
                           parseInt: string -> Result<int, string>,
                           parseFloat: string -> Result<real, string>)
    ensures var o := Evaluate(c, reply, parseInt, parseFloat); EntryScore(o.entry) == Points(o)
  {
    var o := Evaluate(c, reply, parseInt, parseFloat);
    EvaluateContract(c, reply, parseInt, parseFloat);
    if o.Scored? {
      assert o.entry.fields[0] == ("score", JInt(o.points));
    } else {
      assert o.entry.fields[0] == ("score", JInt(0));
    }
  }

  /** Dropping the last criterion keeps the names distinct, and the last name is new to the rest. */
  lemma DistinctPrefix(cs: seq<Criterion>, n: nat)
    requires DistinctNames(cs) && n == |cs| - 1
    ensures DistinctNames(cs[..n]) && cs[n].name !in Names(cs[..n])
  {
    forall i, j | 0 <= i < j < n ensures cs[..n][i].name != cs[..n][j].name {
      assert cs[..n][i] == cs[i] && cs[..n][j] == cs[j];
    }
    forall i | 0 <= i < n ensures Names(cs[..n])[i] != cs[n].name {
      assert Names(cs[..n])[i] == cs[i].name;
    }
  }

  /** With distinct names, every criterion gets its own entry, in rubric order. */
  lemma {:induction false} BreakdownByName(cs: seq<Criterion>, outs: seq<Outcome>)
    requires |cs| == |outs| && DistinctNames(cs)
    ensures Keys(Breakdown(cs, outs)) == Names(cs)
  {
    if outs != [] {
      var n := |outs| - 1;
      DistinctPrefix(cs, n);
      BreakdownByName(cs[..n], outs[..n]);
      NamesAppend(cs, n);
    }
  }

  /** With distinct names, each criterion's entry is appended after the earlier ones. */
  lemma BreakdownLast(cs: seq<Criterion>, outs: seq<Outcome>)
    requires |cs| == |outs| && DistinctNames(cs) && outs != []
    ensures Breakdown(cs, outs) == Breakdown(cs[..|cs| - 1], outs[..|outs| - 1]) + [(cs[|cs| - 1].name, outs[|outs| - 1].entry)]
  {
    var n := |outs| - 1;
    DistinctPrefix(cs, n);
    BreakdownByName(cs[..n], outs[..n]);
    assert cs[n].name !in Keys(Breakdown(cs[..n], outs[..n]));
  }

  /** With distinct names, the breakdown's scores add up to the points of the entries. */
  lemma {:induction false} BreakdownSum(cs: seq<Criterion>, outs: seq<Outcome>)
    requires |cs| == |outs| && DistinctNames(cs)
    requires forall i :: 0 <= i < |outs| ==> EntryScore(outs[i].entry) == Points(outs[i])
    ensures BreakdownScore(Breakdown(cs, outs)) == Total(outs)
  {
    if outs != [] {
      var n := |outs| - 1;
      var b := Breakdown(cs[..n], outs[..n]);
      forall i | 0 <= i < n ensures EntryScore(outs[..n][i].entry) == Points(outs[..n][i]) {
        assert outs[..n][i] == outs[i];
      }
      assert DistinctNames(cs[..n]) by {
        forall i, j | 0 <= i < j < n ensures cs[..n][i].name != cs[..n][j].name {
          assert cs[..n][i] == cs[i] && cs[..n][j] == cs[j];
        }
      }
      BreakdownSum(cs[..n], outs[..n]);
      BreakdownLast(cs, outs);
      assert (b + [(cs[n].name, outs[n].entry)])[..|b|] == b;
    }
  }

  /** With distinct criterion names, `total_score` is the sum of the breakdown's scores. */
  lemma TotalMatchesBreakdown(cs: seq<Criterion>, replies: seq<Reply>,
                              parseInt: string -> Result<int, string>,
                              parseFloat: string -> Result<real, string>)
    requires |replies| == |cs| && DistinctNames(cs)
    ensures var outs := Outcomes(cs, replies, parseInt, parseFloat);
      BreakdownScore(Breakdown(cs, outs)) == Total(outs) && Keys(Breakdown(cs, outs)) == Names(cs)
  {
    var outs := Outcomes(cs, replies, parseInt, parseFloat);
    forall i | 0 <= i < |outs| ensures EntryScore(outs[i].entry) == Points(outs[i]) {
      EntryRecordsPoints(cs[i], replies[i], parseInt, parseFloat);
    }
    BreakdownByName(cs, outs);
    BreakdownSum(cs, outs);
  }

  /**
   * Two criteria with the same name: the second entry replaces the first in
   * the breakdown, but both count toward the total.
   */
  lemma {:induction false} DuplicateNamesCountTwice(c1: Criterion, c2: Criterion, o1: Outcome, o2: Outcome)
    requires c1.name == c2.name
    ensures Total([o1, o2]) == Points(o1) + Points(o2)
    ensures Breakdown([c1, c2], [o1, o2]) == [(c2.name, o2.entry)]
    ensures BreakdownScore(Breakdown([c1, c2], [o1, o2])) == EntryScore(o2.entry)
  {
    assert [o1, o2][..1] == [o1] && [o1][..0] == [];
    assert [c1, c2][..1] == [c1] && [c1][..0] == [];
    assert Total([o1]) == Points(o1);
    var first := Breakdown([c1], [o1]);
    assert first == [(c1.name, o1.entry)] by {
      assert Breakdown([c1][..0], [o1][..0]) == [];
      assert Keys([]) == [];
    }
    assert Keys(first) == [c1.name];
    var both := [(c2.name, o2.entry)];
    assert both[..0] == [];
  }

  lemma {:induction false} SumRealBounds(xs: seq<real>)
    requires forall i :: 0 <= i < |xs| ==> 0.0 <= xs[i] <= 1.0
    ensures 0.0 <= SumReal(xs) <= |xs| as real
  {
    if xs != [] {
      SumRealBounds(xs[..|xs| - 1]);
    }
  }

  /** Rounding to two places keeps a value in [0, 1]. */
  lemma RoundKeepsUnit(x: real)
    requires 0.0 <= x <= 1.0
    ensures 0.0 <= RoundTo2(x) <= 1.0
  {
    var r := RoundHalfEven(x * 100.0);
    assert -0.5 <= r as real <= 100.5;
    assert 0 <= r <= 100;
  }

  lemma ShareInUnit(a: real, n: real)
    requires 0.0 < n && 0.0 <= a <= n
    ensures 0.0 <= a / n <= 1.0
  {
    var q := a / n;
    assert q * n == a;
    assert (1.0 - q) * n == n - a;
  }

  /** When every signal lies in [0, 1], so does the reported confidence. */
  lemma ConfidenceInUnit(s: State, outs: seq<Outcome>)
    requires forall i :: 0 <= i < |outs| ==> 0.0 <= Signal(outs[i]) <= 1.0
    ensures 0.0 <= RoundTo2(Blend(Average(Signals(outs)), Completeness(s))) <= 1.0
  {
    var xs := Signals(outs);
    SumRealBounds(xs);
    var avg := Average(xs);
    if xs != [] {
      ShareInUnit(SumReal(xs), |xs| as real);
    }
    assert 0.0 <= Completeness(s) <= 1.0;
    RoundKeepsUnit(Blend(avg, Completeness(s)));
  }

  /** Reasoning lines come only from scored criteria; no scored criterion, no line and no points. */
  lemma {:induction false} LinesFromScored(outs: seq<Outcome>)
    ensures forall l :: l in Lines(outs) ==> exists i :: 0 <= i < |outs| && outs[i].Scored? && outs[i].line == l
    ensures (forall i :: 0 <= i < |outs| ==> outs[i].Failed?) ==> Lines(outs) == [] && Total(outs) == 0
  {
    if outs != [] {
      var n := |outs| - 1;
      LinesFromScored(outs[..n]);
      forall l | l in Lines(outs) ensures exists i :: 0 <= i < |outs| && outs[i].Scored? && outs[i].line == l {
        if l in Lines(outs[..n]) {
          var i :| 0 <= i < n && outs[..n][i].Scored? && outs[..n][i].line == l;
          assert outs[i] == outs[..n][i];
        } else {
          assert outs[n].Scored? && outs[n].line == l;
        }
      }
      if forall i :: 0 <= i < |outs| ==> outs[i].Failed? {
        assert forall i :: 0 <= i < n ==> outs[..n][i] == outs[i];
      }
    }
  }
}
