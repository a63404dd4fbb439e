/** Candidate generation: the best rows of the ledger, the candidates of stages 2 and 3 built
    from them, and the knob dicts on their way to the worker. Reading and writing JSON text is a
    foreign call: it appears as a pair of functions of which one inverts the other. */
module CandidateGen {
  import opened Optional
  import opened Ledger
  import opened Sweep
  import M = Manifest

  // ----- the best rows -----

  /** An unpaced bit-exact OK row of one of the stages, with a median. */
  predicate Eligible(row: Row, stages: set<string>, tokens: int) {
    row.status == OK && row.bitexact == "true" && row.stage in stages && row.tokens == tokens && row.paced == "false"
    && row.median.Some?
  }

  ghost predicate HaveMedians(ok: seq<Row>) { forall i :: 0 <= i < |ok| ==> ok[i].median.Some? }

  /** The first of the fastest rows with its knobs. */
  ghost predicate Winner(ok: seq<Row>, row: Row)
    requires HaveMedians(ok)
  {
    row.median.Some? && exists n :: 0 <= n < |ok| && ok[n] == row && WinsAt(ok, n)
  }

  ghost predicate WinsAt(ok: seq<Row>, n: nat)
    requires HaveMedians(ok) && n < |ok|
  {
    forall j :: 0 <= j < |ok| && ok[j].knobs == ok[n].knobs ==>
      ok[n].median.value <= ok[j].median.value && (j < n ==> ok[n].median.value < ok[j].median.value)
  }

  /** The dict of the loop: each knob string met so far with the winner of its rows. */
  ghost predicate BestOf(ok: seq<Row>, best: map<string, Row>)
    requires HaveMedians(ok)
  {
    && (forall k :: k in best ==> best[k].knobs == k && Winner(ok, best[k]))
    && (forall i :: 0 <= i < |ok| ==> ok[i].knobs in best)
  }

  lemma WinnerSnoc(ok: seq<Row>, r: Row, row: Row)
    requires HaveMedians(ok) && r.median.Some? && Winner(ok, row)
    requires row.knobs != r.knobs || row.median.value <= r.median.value
    ensures HaveMedians(ok + [r]) && Winner(ok + [r], row)
  {
    var all := ok + [r];
    var n :| 0 <= n < |ok| && ok[n] == row && WinsAt(ok, n);
    assert forall j :: 0 <= j < |ok| ==> all[j] == ok[j];
    assert all[n] == row && WinsAt(all, n);
  }

  /** A row that beats the winner of its knobs, or has new knobs, is the new winner. */
  lemma NewWinner(ok: seq<Row>, r: Row, best: map<string, Row>)
    requires HaveMedians(ok) && r.median.Some? && BestOf(ok, best)
    requires r.knobs !in best || r.median.value < best[r.knobs].median.value
    ensures HaveMedians(ok + [r]) && Winner(ok + [r], r)
  {
    var all := ok + [r];
    assert forall j :: 0 <= j < |ok| ==> all[j] == ok[j];
    forall j | 0 <= j < |ok| && ok[j].knobs == r.knobs
      ensures r.median.value < ok[j].median.value
    {
      assert ok[j].knobs in best;
      var n :| 0 <= n < |ok| && ok[n] == best[r.knobs] && WinsAt(ok, n);
    }
    assert all[|ok|] == r && WinsAt(all, |ok|);
  }

  /** What the loop makes of the dict when it meets r. */
  function BestWith(best: map<string, Row>, r: Row): map<string, Row>
    requires r.median.Some? && (r.knobs in best ==> best[r.knobs].median.Some?)
  {
    if r.knobs !in best || r.median.value < best[r.knobs].median.value then best[r.knobs := r] else best
  }

  lemma BestStep(ok: seq<Row>, r: Row, best: map<string, Row>)
    requires HaveMedians(ok) && r.median.Some? && BestOf(ok, best)
    ensures HaveMedians(ok + [r]) && BestOf(ok + [r], BestWith(best, r))
  {
    var best' := BestWith(best, r);
    var wins := r.knobs !in best || r.median.value < best[r.knobs].median.value;
    if wins {
      NewWinner(ok, r, best);
    }
    forall k | k in best'
      ensures best'[k].knobs == k && Winner(ok + [r], best'[k])
    {
      if k != r.knobs || !wins {
        WinnerSnoc(ok, r, best[k]);
      }
    }
  }

  ghost predicate Sorted(rows: seq<Row>)
    requires HaveMedians(rows)
  {
    forall i, j :: 0 <= i < j < |rows| ==> rows[i].median.value <= rows[j].median.value
  }

  ghost predicate DistinctKnobs(rows: seq<Row>) {
    forall i, j :: 0 <= i < j < |rows| ==> rows[i].knobs != rows[j].knobs
  }

  function EligibleRows(rows: seq<Row>, stages: set<string>, tokens: int): (ok: seq<Row>)
    ensures forall i :: 0 <= i < |ok| ==> ok[i].median.Some?
  {
    if |rows| == 0 then []
    else
      var before, last := EligibleRows(rows[..|rows| - 1], stages, tokens), rows[|rows| - 1];
      if Eligible(last, stages, tokens) then before + [last] else before
  }

  lemma {:induction false} EligibleRowsAre(rows: seq<Row>, stages: set<string>, tokens: int)
    ensures forall r :: r in EligibleRows(rows, stages, tokens) <==> r in rows && Eligible(r, stages, tokens)
    decreases |rows|
  {
    if |rows| > 0 {
      var k := |rows| - 1;
      EligibleRowsAre(rows[..k], stages, tokens);
      assert rows == rows[..k] + [rows[k]];
    }
  }

  ghost predicate Represented(ranked: seq<Row>, knobs: string) {
    exists j :: 0 <= j < |ranked| && ranked[j].knobs == knobs
  }

  /** One row per knob string, the winner of its rows, fastest first. */
  ghost predicate Ranking(ok: seq<Row>, ranked: seq<Row>)
    requires HaveMedians(ok)
  {
    && HaveMedians(ranked) && Sorted(ranked) && DistinctKnobs(ranked)
    && (forall i :: 0 <= i < |ranked| ==> Winner(ok, ranked[i]))
    && (forall i :: 0 <= i < |ok| ==> Represented(ranked, ok[i].knobs))
  }

  function InsertAt(rows: seq<Row>, r: Row, i: nat): (all: seq<Row>)
    requires i <= |rows|
    ensures |all| == |rows| + 1
    ensures forall a :: 0 <= a < |all| ==> all[a] == if a < i then rows[a] else if a == i then r else rows[a - 1]
    ensures multiset(all) == multiset(rows) + multiset{r}
  {
    assert rows == rows[..i] + rows[i..];
    rows[..i] + [r] + rows[i..]
  }

  lemma InsertedSorted(sorted: seq<Row>, r: Row, i: nat)
    requires HaveMedians(sorted) && Sorted(sorted) && r.median.Some? && i <= |sorted|
    requires i > 0 ==> sorted[i - 1].median.value <= r.median.value
    requires i < |sorted| ==> sorted[i].median.value >= r.median.value
    ensures HaveMedians(InsertAt(sorted, r, i)) && Sorted(InsertAt(sorted, r, i))
  {
    var all := InsertAt(sorted, r, i);
    assert HaveMedians(all);
    forall a, b | 0 <= a < b < |all|
      ensures all[a].median.value <= all[b].median.value
    {
      InsertedPair(sorted, r, i, a, b);
    }
  }

  lemma InsertedPair(sorted: seq<Row>, r: Row, i: nat, a: nat, b: nat)
    requires HaveMedians(sorted) && Sorted(sorted) && r.median.Some? && i <= |sorted| && a < b <= |sorted|
    requires i > 0 ==> sorted[i - 1].median.value <= r.median.value
    requires i < |sorted| ==> sorted[i].median.value >= r.median.value
    ensures var all := InsertAt(sorted, r, i);
            all[a].median.Some? && all[b].median.Some? && all[a].median.value <= all[b].median.value
  {
    if b < i {
      InOrder(sorted, a, b);
    } else if b == i {
      InOrder(sorted, a, i - 1);
    } else if a < i {
      InOrder(sorted, a, b - 1);
    } else if a == i {
      InOrder(sorted, i, b - 1);
    } else {
      InOrder(sorted, a - 1, b - 1);
    }
  }

  lemma InOrder(sorted: seq<Row>, a: nat, b: nat)
    requires HaveMedians(sorted) && Sorted(sorted) && a <= b < |sorted|
    ensures sorted[a].median.Some? && sorted[b].median.Some? && sorted[a].median.value <= sorted[b].median.value
  {
  }

  lemma InsertedDistinct(sorted: seq<Row>, r: Row, i: nat)
    requires i <= |sorted| && DistinctKnobs(sorted) && forall x :: x in sorted ==> x.knobs != r.knobs
    ensures DistinctKnobs(InsertAt(sorted, r, i))
  {
  }

  /** Inserts behind everything that is at most as slow, as a stable sort does. */
  method InsertRow(sorted: seq<Row>, r: Row) returns (all: seq<Row>)
    requires HaveMedians(sorted) && Sorted(sorted) && r.median.Some?
    requires DistinctKnobs(sorted) && forall x :: x in sorted ==> x.knobs != r.knobs
    ensures HaveMedians(all) && Sorted(all) && multiset(all) == multiset(sorted) + multiset{r}
    ensures DistinctKnobs(all)
  {
    var i := |sorted|;
    while i > 0 && sorted[i - 1].median.value > r.median.value
      invariant 0 <= i <= |sorted|
      invariant i < |sorted| ==> sorted[i].median.value > r.median.value
    {
      i := i - 1;
    }
    InsertedSorted(sorted, r, i);
    InsertedDistinct(sorted, r, i);
    all := InsertAt(sorted, r, i);
  }

  /** The dict loop over the eligible rows. */
  method BestByKnobs(ok: seq<Row>) returns (best: map<string, Row>, keys: seq<string>)
    requires HaveMedians(ok)
    ensures BestOf(ok, best) && (forall k :: k in keys <==> k in best)
    ensures forall i, j :: 0 <= i < j < |keys| ==> keys[i] != keys[j]
  {
    best, keys := map[], [];
    for i := 0 to |ok|
      invariant HaveMedians(ok[..i]) && BestOf(ok[..i], best)
      invariant forall k :: k in keys <==> k in best
      invariant forall a, b :: 0 <= a < b < |keys| ==> keys[a] != keys[b]
    {
      var r := ok[i];
      assert ok[..i + 1] == ok[..i] + [r];
      BestStep(ok[..i], r, best);
      if r.knobs !in best {
        keys := keys + [r.knobs];
        best := best[r.knobs := r];
      } else if r.median.value < best[r.knobs].median.value {
        best := best[r.knobs := r];
      }
    }
    assert ok[..|ok|] == ok;
  }

  /** sorted(best.values(), key=median), the values in the order of their keys. */
  method SortedValues(best: map<string, Row>, keys: seq<string>) returns (ranked: seq<Row>)
    requires forall k :: k in keys ==> k in best && best[k].knobs == k && best[k].median.Some?
    requires forall i, j :: 0 <= i < j < |keys| ==> keys[i] != keys[j]
    ensures HaveMedians(ranked) && Sorted(ranked) && DistinctKnobs(ranked)
    ensures multiset(ranked) == multiset(ValuesOf(best, keys))
  {
    ranked := [];
    for i := 0 to |keys|
      invariant HaveMedians(ranked) && Sorted(ranked) && DistinctKnobs(ranked)
      invariant multiset(ranked) == multiset(ValuesOf(best, keys)[..i])
    {
      assert keys[i] in keys;
      forall x | x in ranked
        ensures x.knobs != keys[i]
      {
        assert x in multiset(ranked);
        assert x in ValuesOf(best, keys)[..i];
        assert forall j :: 0 <= j < i ==> keys[j] in keys && ValuesOf(best, keys)[j].knobs == keys[j];
      }
      assert ValuesOf(best, keys)[..i + 1] == ValuesOf(best, keys)[..i] + [best[keys[i]]];
      ranked := InsertRow(ranked, best[keys[i]]);
    }
    assert ValuesOf(best, keys)[..|keys|] == ValuesOf(best, keys);
  }

  function ValuesOf(best: map<string, Row>, keys: seq<string>): seq<Row>
    requires forall k :: k in keys ==> k in best
  {
    seq(|keys|, i requires 0 <= i < |keys| => best[keys[i]])
  }

  /** load_ok_rows: filter, keep the best row per knob string, sort. */
  method LoadOkRows(rows: seq<Row>, stages: set<string>, tokens: int) returns (ranked: seq<Row>)
    ensures Ranking(EligibleRows(rows, stages, tokens), ranked)
    ensures forall results :: rows == CsvRows(results) ==> BestOfResults(results, stages, tokens, ranked)
  {
    var ok := [];
    for i := 0 to |rows|
      invariant ok == EligibleRows(rows[..i], stages, tokens)
    {
      assert rows[..i + 1][..i] == rows[..i];
      if Eligible(rows[i], stages, tokens) {
        ok := ok + [rows[i]];
      }
    }
    assert rows[..|rows|] == rows;
    var best, keys := BestByKnobs(ok);
    ranked := SortedValues(best, keys);
    RankingOf(ok, best, keys, ranked);
    forall results | rows == CsvRows(results)
      ensures BestOfResults(results, stages, tokens, ranked)
    {
      RankingIsBest(results, stages, tokens, ranked);
    }
  }

  lemma RankingOf(ok: seq<Row>, best: map<string, Row>, keys: seq<string>, ranked: seq<Row>)
    requires HaveMedians(ok) && BestOf(ok, best) && (forall k :: k in keys <==> k in best)
    requires HaveMedians(ranked) && Sorted(ranked) && DistinctKnobs(ranked)
    requires multiset(ranked) == multiset(ValuesOf(best, keys))
    ensures Ranking(ok, ranked)
  {
    var values := ValuesOf(best, keys);
    forall i | 0 <= i < |ranked|
      ensures Winner(ok, ranked[i])
    {
      assert ranked[i] in multiset(values);
      assert ranked[i] in values;
    }
    forall i | 0 <= i < |ok|
      ensures Represented(ranked, ok[i].knobs)
    {
      assert ok[i].knobs in keys;
      var k :| 0 <= k < |keys| && keys[k] == ok[i].knobs;
      assert values[k] in multiset(ranked);
      var j :| 0 <= j < |ranked| && ranked[j] == values[k];
      assert ranked[j].knobs == keys[k];
    }
  }

  // ----- the ranking in terms of the workers' results -----

  /** An unpaced OK result of one of the stages at the token count, measured, whose copied output
      and view both matched the reference. */
  ghost predicate Sound(r: JsonRow, stages: set<string>, tokens: int) {
    && r.status == OK && !r.paced && r.stage in stages && r.tokens == tokens && r.median.Some?
    && r.bitCopy == Some(true) && r.bitView == Some(true)
  }

  ghost predicate RankedFrom(row: Row, results: seq<JsonRow>, stages: set<string>, tokens: int) {
    exists r :: r in results && Sound(r, stages, tokens) && row == JsonToRow(r)
  }

  /** Some ranked row has these knobs and is no slower. */
  ghost predicate Beaten(ranked: seq<Row>, r: JsonRow)
    requires HaveMedians(ranked) && r.median.Some?
  {
    exists j :: 0 <= j < |ranked| && ranked[j].knobs == r.knobs && ranked[j].median.value <= r.median.value
  }

  /** The ranking holds sound results only, one per knob string, fastest first; and every sound
      result's knobs are in it, with a time no slower than its own. */
  ghost predicate BestOfResults(results: seq<JsonRow>, stages: set<string>, tokens: int, ranked: seq<Row>) {
    && HaveMedians(ranked) && Sorted(ranked) && DistinctKnobs(ranked)
    && (forall i :: 0 <= i < |ranked| ==> RankedFrom(ranked[i], results, stages, tokens))
    && (forall r :: r in results && Sound(r, stages, tokens) ==> Beaten(ranked, r))
  }

  lemma EligibleIffSound(r: JsonRow, stages: set<string>, tokens: int)
    ensures Eligible(JsonToRow(r), stages, tokens) <==> Sound(r, stages, tokens)
  {
    BitexactText(r);
    assert "true"[0] != "false"[0];
  }

  lemma CsvMembers(results: seq<JsonRow>, row: Row)
    ensures row in CsvRows(results) <==> exists r :: r in results && row == JsonToRow(r)
  {
    if r :| r in results && row == JsonToRow(r) {
      var i :| 0 <= i < |results| && results[i] == r;
      assert CsvRows(results)[i] == row;
    }
    if row in CsvRows(results) {
      var i :| 0 <= i < |results| && CsvRows(results)[i] == row;
      assert results[i] in results;
    }
  }

  lemma RankingIsBest(results: seq<JsonRow>, stages: set<string>, tokens: int, ranked: seq<Row>)
    requires Ranking(EligibleRows(CsvRows(results), stages, tokens), ranked)
    ensures BestOfResults(results, stages, tokens, ranked)
  {
    var rows := CsvRows(results);
    var ok := EligibleRows(rows, stages, tokens);
    EligibleRowsAre(rows, stages, tokens);
    forall i | 0 <= i < |ranked|
      ensures RankedFrom(ranked[i], results, stages, tokens)
    {
      WinnerIsOne(ok, ranked[i]);
      CsvMembers(results, ranked[i]);
      var r :| r in results && ranked[i] == JsonToRow(r);
      EligibleIffSound(r, stages, tokens);
    }
    forall r | r in results && Sound(r, stages, tokens)
      ensures Beaten(ranked, r)
    {
      CsvMembers(results, JsonToRow(r));
      EligibleIffSound(r, stages, tokens);
      SoundIsBeaten(ok, ranked, r);
    }
  }

  lemma WinnerIsOne(ok: seq<Row>, row: Row)
    requires HaveMedians(ok) && Winner(ok, row)
    ensures row in ok
  {
  }

  lemma SoundIsBeaten(ok: seq<Row>, ranked: seq<Row>, r: JsonRow)
    requires HaveMedians(ok) && Ranking(ok, ranked) && JsonToRow(r) in ok && r.median.Some?
    ensures Beaten(ranked, r)
  {
    var i :| 0 <= i < |ok| && ok[i] == JsonToRow(r);
    assert Represented(ranked, ok[i].knobs);
    var j :| 0 <= j < |ranked| && ranked[j].knobs == ok[i].knobs;
    assert Winner(ok, ranked[j]);
    var n :| 0 <= n < |ok| && ok[n] == ranked[j] && WinsAt(ok, n);
  }

  /** A prefix of the ranking is the best configurations: an eligible row whose knobs are not in
      it is at least as slow as everything in it. */
  lemma PrefixIsBest(ok: seq<Row>, ranked: seq<Row>, k: nat, i: nat)
    requires HaveMedians(ok) && Ranking(ok, ranked) && k <= |ranked| && i < |ok|
    requires forall j :: 0 <= j < k ==> ranked[j].knobs != ok[i].knobs
    ensures forall j :: 0 <= j < k ==> ranked[j].median.value <= ok[i].median.value
  {
    assert Represented(ranked, ok[i].knobs);
    var j :| 0 <= j < |ranked| && ranked[j].knobs == ok[i].knobs;
    assert Winner(ok, ranked[j]);
    var n :| 0 <= n < |ok| && ok[n] == ranked[j] && WinsAt(ok, n);
  }

  // ----- knob dicts -----

  /** A knob value as Python holds it; JSON has no tuples. */
  datatype Value = Null | Bool(truth: bool) | Num(n: int) | Text(text: string)
                 | List(items: seq<Value>) | Tuple(items: seq<Value>)

  type Knobs = map<string, Value>

  const TUPLE_KNOBS := ["mma_tiler_mnk", "cluster_shape_mnk", "epi_flag_batch"]

  /** Keys that start with an underscore are not passed on. */
  predicate Meta(key: string) { |key| > 0 && key[0] == '_' }

  function Tupled(key: string, v: Value): Value {
    if key in TUPLE_KNOBS && v.List? then Tuple(v.items) else v
  }

  function Normalized(d: Knobs): Knobs {
    map k | k in d && !Meta(k) :: Tupled(k, d[k])
  }

  /** _normalize_knobs: drop the meta keys, then turn three of the lists into tuples. */
  method NormalizeKnobs(d: Knobs) returns (out: Knobs)
    ensures out == Normalized(d)
  {
    out := map k | k in d && !Meta(k) :: d[k];
    for i := 0 to |TUPLE_KNOBS|
      invariant out.Keys == set k | k in d && !Meta(k)
      invariant forall k :: k in out ==> out[k] == if k in TUPLE_KNOBS[..i] then Tupled(k, d[k]) else d[k]
    {
      var k := TUPLE_KNOBS[i];
      assert TUPLE_KNOBS[..i + 1] == TUPLE_KNOBS[..i] + [k];
      if k in out && out[k].List? {
        out := out[k := Tuple(out[k].items)];
      }
    }
    assert TUPLE_KNOBS[..|TUPLE_KNOBS|] == TUPLE_KNOBS;
  }

  /** jsonable() of a value: only the value itself is turned, not what it holds. */
  function Relisted(v: Value): Value { if v.Tuple? then List(v.items) else v }

  /** The generator's dict as it goes to json.dump. */
  function Jsonable(d: Knobs): Knobs {
    map k | k in d :: Relisted(d[k])
  }

  /** What JSON makes of a value: arrays at every depth. */
  function Plain(v: Value): Value {
    match v
    case List(items) => List(seq(|items|, i requires 0 <= i < |items| => Plain(items[i])))
    case Tuple(items) => List(seq(|items|, i requires 0 <= i < |items| => Plain(items[i])))
    case _ => v
  }

  ghost predicate NoTuple(v: Value) {
    match v
    case List(items) => forall i :: 0 <= i < |items| ==> NoTuple(items[i])
    case Tuple(_) => false
    case _ => true
  }

  ghost predicate NoTuples(vs: seq<Value>) { forall i :: 0 <= i < |vs| ==> NoTuple(vs[i]) }

  /** JSON keeps a value exactly when it holds no tuple at any depth. */
  lemma {:induction false} PlainIff(v: Value)
    ensures Plain(v) == v <==> NoTuple(v)
    ensures NoTuple(Plain(v))
    decreases v
  {
    if v.List? || v.Tuple? {
      forall i | 0 <= i < |v.items|
        ensures (Plain(v.items[i]) == v.items[i] <==> NoTuple(v.items[i])) && NoTuple(Plain(v.items[i]))
      {
        PlainIff(v.items[i]);
      }
      if v.List? && Plain(v) == v {
        forall i | 0 <= i < |v.items|
          ensures NoTuple(v.items[i])
        {
          assert Plain(v).items[i] == v.items[i];
        }
      }
      if v.List? && NoTuple(v) {
        assert Plain(v).items == v.items;
      }
    }
  }

  function PlainDict(d: Knobs): Knobs { map k | k in d :: Plain(d[k]) }

  /** json.dumps with sorted keys, and json.loads. */
  datatype Json = Json(dumps: Knobs -> string, loads: string -> Knobs) {
    /** Reading what was written gives the dict with arrays for tuples; nothing that is read
        holds a tuple. */
    ghost predicate Faithful() {
      && (forall d: Knobs :: loads(dumps(d)) == PlainDict(d))
      && (forall s: string :: FromJson(loads(s)))
    }
  }

  /** A dict as read from JSON text. */
  ghost predicate FromJson(d: Knobs) { forall k :: k in d ==> NoTuple(d[k]) }

  lemma FromJsonKept(json: Json, d: Knobs)
    requires json.Faithful() && FromJson(d)
    ensures json.loads(json.dumps(d)) == d
  {
    forall k | k in d
      ensures Plain(d[k]) == d[k]
    {
      PlainIff(d[k]);
    }
    assert PlainDict(d).Keys == d.Keys;
  }

  /** A value is a tuple or a list just as its key says, and neither holds a tuple. */
  ghost predicate ShapedAt(k: string, v: Value) {
    !Meta(k) && match v
    case Tuple(items) => k in TUPLE_KNOBS && NoTuples(items)
    case List(items) => k !in TUPLE_KNOBS && NoTuples(items)
    case _ => true
  }

  ghost predicate KnobShaped(d: Knobs) {
    forall k :: k in d ==> ShapedAt(k, d[k])
  }

  /** What the worker makes of one value that went through jsonable() and JSON. */
  lemma ShapedAtIff(k: string, v: Value)
    requires !Meta(k)
    ensures Tupled(k, Plain(Relisted(v))) == v <==> ShapedAt(k, v)
  {
    if v.List? || v.Tuple? {
      var list := List(v.items);
      PlainIff(list);
      assert Relisted(v) == list;
      assert NoTuple(list) <==> NoTuples(v.items);
      assert Plain(list) == list <==> Plain(list).items == v.items;
    }
  }

  /** Through json and back the worker gets exactly the dict the generator had, if and only if
      that dict is so shaped. */
  lemma WorkerGetsKnobsIff(json: Json, d: Knobs)
    requires json.Faithful()
    ensures Normalized(json.loads(json.dumps(Jsonable(d)))) == d <==> KnobShaped(d)
  {
    var read := PlainDict(Jsonable(d));
    assert json.loads(json.dumps(Jsonable(d))) == read;
    var out := Normalized(read);
    forall k | k in d && !Meta(k)
      ensures k in out && (out[k] == d[k] <==> ShapedAt(k, d[k]))
    {
      assert k in Jsonable(d) && read[k] == Plain(Relisted(d[k]));
      ShapedAtIff(k, d[k]);
    }
    if out == d {
      assert forall k :: k in d ==> k in out && !Meta(k);
    }
    if KnobShaped(d) {
      assert out.Keys == d.Keys;
    }
  }

  function Nums(ns: seq<int>): seq<Value> { seq(|ns|, i requires 0 <= i < |ns| => Num(ns[i])) }

  /** The generator's dicts: three knobs are tuples of numbers, the others are no sequences. */
  ghost predicate Generated(d: Knobs, tile: seq<int>, cluster: seq<int>, epi: seq<int>) {
    && "mma_tiler_mnk" in d && d["mma_tiler_mnk"] == Tuple(Nums(tile))
    && "cluster_shape_mnk" in d && d["cluster_shape_mnk"] == Tuple(Nums(cluster))
    && "epi_flag_batch" in d && d["epi_flag_batch"] == Tuple(Nums(epi))
    && forall k :: k in d ==>
         !Meta(k) && (d[k].List? || d[k].Tuple? ==> k in {"mma_tiler_mnk", "cluster_shape_mnk", "epi_flag_batch"})
  }

  /** Every dict of stages 1 and 2 reaches the worker as it was generated. */
  lemma GeneratedArrives(json: Json, d: Knobs, tile: seq<int>, cluster: seq<int>, epi: seq<int>)
    requires json.Faithful() && Generated(d, tile, cluster, epi)
    ensures Normalized(json.loads(json.dumps(Jsonable(d)))) == d
  {
    forall k | k in d
      ensures ShapedAt(k, d[k])
    {
      if d[k].List? || d[k].Tuple? {
        assert d[k] in {Tuple(Nums(tile)), Tuple(Nums(cluster)), Tuple(Nums(epi))};
        assert NoTuples(d[k].items);
      }
    }
    WorkerGetsKnobsIff(json, d);
  }

  function WithoutMeta(d: Knobs): Knobs { map k | k in d && !Meta(k) :: d[k] }

  /** Two dicts from JSON reach the worker as the same knobs exactly when they differ at most in
      meta keys. */
  lemma SameKnobsIff(a: Knobs, b: Knobs)
    requires FromJson(a) && FromJson(b)
    ensures Normalized(a) == Normalized(b) <==> WithoutMeta(a) == WithoutMeta(b)
  {
    if Normalized(a) == Normalized(b) {
      var x, y := WithoutMeta(a), WithoutMeta(b);
      assert x.Keys == Normalized(a).Keys && y.Keys == Normalized(b).Keys;
      forall k | k in x
        ensures k in y && x[k] == y[k]
      {
        assert k in Normalized(b) && Tupled(k, a[k]) == Tupled(k, b[k]);
      }
      assert x == y;
    }
    if WithoutMeta(a) == WithoutMeta(b) {
      forall k | k in Normalized(a)
        ensures k in Normalized(b) && Normalized(a)[k] == Normalized(b)[k]
      {
        assert k in WithoutMeta(a) && WithoutMeta(a)[k] == WithoutMeta(b)[k];
      }
      assert forall k :: k in Normalized(b) ==> k in WithoutMeta(a);
    }
  }

  // ----- stage 3 -----

  const REP := "_rep"

  /** A finalist's knob dict without its repetition number. */
  function Base(json: Json, w: Row): Knobs { json.loads(w.knobs) - {REP} }

  /** One stage-3 candidate: a finalist, a token count, paced or not, and a repetition. */
  datatype Cell = Cell(finalist: nat, tokens: nat, paced: bool, rep: nat)

  function RepCells(f: nat, tokens: nat, paced: bool): seq<Cell> {
    [Cell(f, tokens, paced, 1), Cell(f, tokens, paced, 2), Cell(f, tokens, paced, 3)]
  }

  function PaceCells(f: nat, tokens: nat): seq<Cell> { RepCells(f, tokens, false) + RepCells(f, tokens, true) }

  function CellsOf(f: nat): seq<Cell> { PaceCells(f, 64) + PaceCells(f, 128) }

  /** All cells of the first n finalists, in the order of the nested loops. */
  function Cells(n: nat): seq<Cell> { if n == 0 then [] else Cells(n - 1) + CellsOf(n - 1) }

  function CellId(c: Cell): string {
    M.Put("s3-f", M.Str(c.finalist), M.Put("-m", M.Str(c.tokens), AfterTokens(c)))
  }

  function AfterTokens(c: Cell): string { M.Put("-", if c.paced then "p" else "u", M.Put("-r", M.Str(c.rep), "")) }

  function CellKnobs(json: Json, finalists: seq<Row>, c: Cell): Knobs
    requires c.finalist < |finalists|
  {
    Base(json, finalists[c.finalist])[REP := Num(c.rep)]
  }

  function CellCandidate(json: Json, finalists: seq<Row>, c: Cell): Candidate
    requires c.finalist < |finalists|
  {
    Candidate(CellId(c), "3", c.tokens, json.dumps(CellKnobs(json, finalists, c)), "view", c.paced, false)
  }

  lemma {:induction false} CellsInRange(n: nat)
    ensures forall i :: 0 <= i < |Cells(n)| ==> Cells(n)[i].finalist < n
  {
    if n > 0 {
      CellsInRange(n - 1);
    }
  }

  /** The place of a candidate in the order of the nested loops. */
  function Place(f: nat, t: nat, p: nat, rep: nat): nat { 12 * f + 6 * t + 3 * p + rep }

  /** The order of the nested loops: finalist, token count, pacing, repetition. */
  lemma {:induction false} CellAt(n: nat, f: nat, t: nat, p: nat, rep: nat)
    requires f < n && t < 2 && p < 2 && rep < 3
    ensures |Cells(n)| == 12 * n
    ensures Cells(n)[Place(f, t, p, rep)] == Cell(f, if t == 0 then 64 else 128, p == 1, rep + 1)
  {
    CellsSize(n - 1);
    CellOf(n - 1, t, p, rep);
    if f < n - 1 {
      CellAt(n - 1, f, t, p, rep);
    }
  }

  lemma CellOf(f: nat, t: nat, p: nat, rep: nat)
    requires t < 2 && p < 2 && rep < 3
    ensures |CellsOf(f)| == 12
    ensures CellsOf(f)[6 * t + 3 * p + rep] == Cell(f, if t == 0 then 64 else 128, p == 1, rep + 1)
  {
    assert |PaceCells(f, 64)| == 6;
    assert CellsOf(f)[6 * t + 3 * p + rep] == PaceCells(f, if t == 0 then 64 else 128)[3 * p + rep];
  }

  lemma {:induction false} CellsSize(n: nat)
    ensures |Cells(n)| == 12 * n
  {
    if n > 0 {
      CellsSize(n - 1);
    }
  }

  function Stage3(json: Json, finalists: seq<Row>): seq<Candidate> {
    CellsInRange(|finalists|);
    var cells := Cells(|finalists|);
    seq(|cells|, i requires 0 <= i < |cells| => CellCandidate(json, finalists, cells[i]))
  }

  /** Python's ranked[:8]. */
  function TopEight(ranked: seq<Row>): seq<Row> { if |ranked| <= 8 then ranked else ranked[..8] }

  ghost predicate Within(cells: seq<Cell>, n: nat) { forall c :: c in cells ==> c.finalist < n }

  function Candidates(json: Json, finalists: seq<Row>, cells: seq<Cell>): seq<Candidate>
    requires Within(cells, |finalists|)
  {
    seq(|cells|, i requires 0 <= i < |cells| => CellCandidate(json, finalists, cells[i]))
  }

  lemma CandidatesConcat(json: Json, finalists: seq<Row>, a: seq<Cell>, b: seq<Cell>)
    requires Within(a, |finalists|) && Within(b, |finalists|)
    ensures Within(a + b, |finalists|)
    ensures Candidates(json, finalists, a + b) == Candidates(json, finalists, a) + Candidates(json, finalists, b)
  {
  }

  /** The loop over repetitions. */
  method Repetitions(json: Json, finalists: seq<Row>, f: nat, tokens: nat, paced: bool) returns (cands: seq<Candidate>)
    requires f < |finalists|
    ensures cands == Candidates(json, finalists, RepCells(f, tokens, paced))
  {
    cands := [];
    for rep := 1 to 4
      invariant cands == Candidates(json, finalists, RepCells(f, tokens, paced)[..rep - 1])
    {
      cands := cands + [CellCandidate(json, finalists, Cell(f, tokens, paced, rep))];
    }
  }

  /** The loop over pacing. */
  method Pacings(json: Json, finalists: seq<Row>, f: nat, tokens: nat) returns (cands: seq<Candidate>)
    requires f < |finalists|
    ensures cands == Candidates(json, finalists, PaceCells(f, tokens))
  {
    cands := Repetitions(json, finalists, f, tokens, false);
    var paced := Repetitions(json, finalists, f, tokens, true);
    CandidatesConcat(json, finalists, RepCells(f, tokens, false), RepCells(f, tokens, true));
    cands := cands + paced;
  }

  /** The loop over token counts. */
  method TokenCounts(json: Json, finalists: seq<Row>, f: nat) returns (cands: seq<Candidate>)
    requires f < |finalists|
    ensures cands == Candidates(json, finalists, CellsOf(f))
  {
    cands := Pacings(json, finalists, f, 64);
    var more := Pacings(json, finalists, f, 128);
    CandidatesConcat(json, finalists, PaceCells(f, 64), PaceCells(f, 128));
    cands := cands + more;
  }

  /** The candidates of stage 3: the knobs of the f-th fastest row with a repetition number in place
      of its own, at 64 or 128 tokens, unpaced or paced. */
  ghost predicate Stage3Made(json: Json, ranked: seq<Row>, cands: seq<Candidate>) {
    && |cands| == 12 * (if |ranked| < 8 then |ranked| else 8)
    && forall f, t, p, rep :: 0 <= f < |ranked| && f < 8 && 0 <= t < 2 && 0 <= p < 2 && 0 <= rep < 3 ==>
         MadeFrom(json, ranked[f], t, p, rep, cands[Place(f, t, p, rep)])
  }

  ghost predicate MadeFrom(json: Json, w: Row, t: nat, p: nat, rep: nat, c: Candidate) {
    && c.stage == "3" && c.closure == "view" && !c.invalid
    && c.tokens == (if t == 0 then 64 else 128) && (c.paced <==> p == 1)
    && c.knobs == json.dumps((json.loads(w.knobs) - {"_rep"})["_rep" := Num(rep + 1)])
  }

  lemma CellIsMade(json: Json, finalists: seq<Row>, c: Cell, t: nat, p: nat, rep: nat)
    requires c.finalist < |finalists| && c == Cell(c.finalist, if t == 0 then 64 else 128, p == 1, rep + 1)
    ensures MadeFrom(json, finalists[c.finalist], t, p, rep, CellCandidate(json, finalists, c))
  {
  }

  lemma Stage3At(json: Json, finalists: seq<Row>, f: nat, t: nat, p: nat, rep: nat)
    requires f < |finalists| && t < 2 && p < 2 && rep < 3
    ensures |Stage3(json, finalists)| == 12 * |finalists|
    ensures MadeFrom(json, finalists[f], t, p, rep, Stage3(json, finalists)[Place(f, t, p, rep)])
  {
    CellAt(|finalists|, f, t, p, rep);
    CellIsMade(json, finalists, Cells(|finalists|)[Place(f, t, p, rep)], t, p, rep);
  }

  lemma Stage3Is(json: Json, ranked: seq<Row>)
    ensures Stage3Made(json, ranked, Stage3(json, TopEight(ranked)))
  {
    var finalists := TopEight(ranked);
    CellsSize(|finalists|);
    forall f, t, p, rep | 0 <= f < |ranked| && f < 8 && 0 <= t < 2 && 0 <= p < 2 && 0 <= rep < 3
      ensures MadeFrom(json, ranked[f], t, p, rep, Stage3(json, finalists)[Place(f, t, p, rep)])
    {
      Stage3At(json, finalists, f, t, p, rep);
    }
  }

  /** gen_stage3, with the ranking it takes its finalists from; None is the exit when no stage-1
      or stage-2 row is eligible. */
  method GenStage3(json: Json, rows: seq<Row>) returns (r: Option<seq<Candidate>>, ranked: seq<Row>)
    ensures Ranking(EligibleRows(rows, {"1", "2"}, 128), ranked)
    ensures forall results :: rows == CsvRows(results) ==> BestOfResults(results, {"1", "2"}, 128, ranked)
    ensures r == if ranked == [] then None else Some(Stage3(json, TopEight(ranked)))
    ensures r.Some? ==> Stage3Made(json, ranked, r.value)
  {
    ranked := LoadOkRows(rows, {"1", "2"}, 128);
    var finalists := TopEight(ranked);
    if |finalists| == 0 {
      return None, ranked;
    }
    var cands := FinalistLoop(json, finalists);
    Stage3Is(json, ranked);
    r := Some(cands);
  }

  lemma OneMoreFinalist(json: Json, finalists: seq<Row>, f: nat)
    requires f < |finalists|
    ensures Within(Cells(f), |finalists|) && Within(CellsOf(f), |finalists|) && Within(Cells(f + 1), |finalists|)
    ensures Candidates(json, finalists, Cells(f + 1))
         == Candidates(json, finalists, Cells(f)) + Candidates(json, finalists, CellsOf(f))
  {
    CellsInRange(f);
    CandidatesConcat(json, finalists, Cells(f), CellsOf(f));
  }

  /** The loop over the finalists. */
  method FinalistLoop(json: Json, finalists: seq<Row>) returns (cands: seq<Candidate>)
    ensures cands == Stage3(json, finalists)
  {
    cands := [];
    for f := 0 to |finalists|
      invariant Within(Cells(f), |finalists|) && cands == Candidates(json, finalists, Cells(f))
    {
      OneMoreFinalist(json, finalists, f);
      var more := TokenCounts(json, finalists, f);
      cands := cands + more;
    }
  }

  // ----- ids and keys -----

  lemma {:induction false} CellsDistinct(n: nat)
    ensures forall i, j :: 0 <= i < j < |Cells(n)| ==> Cells(n)[i] != Cells(n)[j]
  {
    if n > 0 {
      CellsDistinct(n - 1);
      CellsInRange(n - 1);
    }
  }

  /** An id in full. */
  lemma IdText(c: Cell)
    ensures CellId(c) == "s3-f" + M.Str(c.finalist) + "-m" + M.Str(c.tokens) + (if c.paced then "-p-r" else "-u-r")
      + M.Str(c.rep)
  {
  }

  /** Reading the parts of an id back. */
  lemma IdFields(c: Cell)
    ensures M.Field(CellId(c), "s3-f", M.IsDigit) ==
      Some((M.Str(c.finalist), M.Put("-m", M.Str(c.tokens), AfterTokens(c))))
    ensures M.Field(M.Put("-m", M.Str(c.tokens), AfterTokens(c)), "-m", M.IsDigit) ==
      Some((M.Str(c.tokens), AfterTokens(c)))
  {
    M.IntOfStr(c.finalist);
    M.IntOfStr(c.tokens);
    M.FieldOf("s3-f", M.Str(c.finalist), M.Put("-m", M.Str(c.tokens), AfterTokens(c)), M.IsDigit);
    M.FieldOf("-m", M.Str(c.tokens), AfterTokens(c), M.IsDigit);
  }

  lemma IdTailFields(c: Cell)
    ensures M.Field(AfterTokens(c), "-", M.IsWord) ==
      Some((if c.paced then "p" else "u", M.Put("-r", M.Str(c.rep), "")))
    ensures M.Field(M.Put("-r", M.Str(c.rep), ""), "-r", M.IsDigit) == Some((M.Str(c.rep), ""))
  {
    M.IntOfStr(c.rep);
    M.FieldOf("-", if c.paced then "p" else "u", M.Put("-r", M.Str(c.rep), ""), M.IsWord);
    M.FieldOf("-r", M.Str(c.rep), "", M.IsDigit);
  }

  /** A cell can be read back from its id. */
  lemma IdInjective(c: Cell, d: Cell)
    requires CellId(c) == CellId(d)
    ensures c == d
  {
    IdFields(c);
    IdFields(d);
    IdTailFields(c);
    IdTailFields(d);
    M.IntOfStr(c.finalist);
    M.IntOfStr(d.finalist);
    M.IntOfStr(c.tokens);
    M.IntOfStr(d.tokens);
    M.IntOfStr(c.rep);
    M.IntOfStr(d.rep);
    assert "p"[0] != "u"[0];
  }

  /** Two stage-3 candidates share a ledger key exactly when they differ in no more than a
      finalist of the same base. */
  lemma SameKeyIff(json: Json, finalists: seq<Row>, c: Cell, d: Cell)
    requires json.Faithful() && c.finalist < |finalists| && d.finalist < |finalists|
    ensures CandidateKey(CellCandidate(json, finalists, c)) == CandidateKey(CellCandidate(json, finalists, d)) <==>
            c.tokens == d.tokens && c.paced == d.paced && c.rep == d.rep
            && Base(json, finalists[c.finalist]) == Base(json, finalists[d.finalist])
  {
    var a, b := CellKnobs(json, finalists, c), CellKnobs(json, finalists, d);
    assert FromJson(json.loads(finalists[c.finalist].knobs)) && FromJson(json.loads(finalists[d.finalist].knobs));
    FromJsonKept(json, a);
    FromJsonKept(json, b);
    assert a - {REP} == Base(json, finalists[c.finalist]) && b - {REP} == Base(json, finalists[d.finalist]);
    assert a[REP] == Num(c.rep) && b[REP] == Num(d.rep);
    assert Lower(true)[0] != Lower(false)[0];
  }

  /** Rows whose knobs column was written by the sweep, for candidates of stages 1 and 2. */
  ghost predicate Canonical(json: Json, w: Row) {
    json.dumps(json.loads(w.knobs)) == w.knobs && REP !in json.loads(w.knobs)
  }

  /** The candidates of stage 3 have pairwise distinct ids and pairwise distinct ledger keys. */
  lemma Stage3Distinct(json: Json, finalists: seq<Row>, i: nat, j: nat)
    requires json.Faithful() && DistinctKnobs(finalists)
    requires forall k :: 0 <= k < |finalists| ==> Canonical(json, finalists[k])
    requires i < j < |Stage3(json, finalists)|
    ensures Stage3(json, finalists)[i].id != Stage3(json, finalists)[j].id
    ensures CandidateKey(Stage3(json, finalists)[i]) != CandidateKey(Stage3(json, finalists)[j])
  {
    var cells := Cells(|finalists|);
    CellsDistinct(|finalists|);
    CellsInRange(|finalists|);
    var c, d := cells[i], cells[j];
    if CellId(c) == CellId(d) {
      IdInjective(c, d);
    }
    SameKeyIff(json, finalists, c, d);
    if c.finalist != d.finalist {
      BasesDiffer(json, finalists, c.finalist, d.finalist);
    }
  }

  lemma BasesDiffer(json: Json, finalists: seq<Row>, f: nat, g: nat)
    requires DistinctKnobs(finalists) && f < |finalists| && g < |finalists| && f != g
    requires Canonical(json, finalists[f]) && Canonical(json, finalists[g])
    ensures Base(json, finalists[f]) != Base(json, finalists[g])
  {
    var a, b := json.loads(finalists[f].knobs), json.loads(finalists[g].knobs);
    assert a - {REP} == a && b - {REP} == b;
  }

  /** All repetitions of a finalist, at either token count and pacing, reach the worker as the
      same knobs, those of the row the finalist came from. */
  lemma RepsRunSameKnobs(json: Json, finalists: seq<Row>, c: Cell)
    requires json.Faithful() && c.finalist < |finalists|
    ensures Normalized(json.loads(json.dumps(CellKnobs(json, finalists, c))))
         == Normalized(json.loads(finalists[c.finalist].knobs))
  {
    assert FromJson(json.loads(finalists[c.finalist].knobs));
    FromJsonKept(json, CellKnobs(json, finalists, c));
    assert Meta(REP);
  }

  /** The resume key on stage 3: once the unpaced candidate of a pair has finished, a resumed
      sweep runs it again and skips its paced twin. */
  lemma Stage3ResumeSwapsTwins(json: Json, finalists: seq<Row>, c: Cell, rows: seq<Row>, o: Options)
    requires c.finalist < |finalists| && !c.paced && WrittenBySweep(rows)
    requires Finished(rows, o, CellCandidate(json, finalists, c))
    ensures !Skipped(rows, o, CellCandidate(json, finalists, c))
    ensures Skipped(rows, o, CellCandidate(json, finalists, c.(paced := true)))
  {
    var unpaced, paced := CellCandidate(json, finalists, c), CellCandidate(json, finalists, c.(paced := true));
    SkippedExactly(rows, o, unpaced);
    SkippedExactly(rows, o, paced);
    assert FinishedAs(rows, o, paced, "false");
  }
}
