/**
 What enrichment computes, read off the raw row: which number ends up in which figure, and times what.

 Vega and Curvature rows keep their numbers; other rows are weighed by the table of their class.
 */
module Figures {
  import opened Json
  import opened Listing
  import opened Docs

  /** The entry holds the number last given under its label. */
  predicate LastUnder(fields: seq<(string, Json)>, i: int) {
    && 0 <= i < |fields| && fields[i].1.JNum?
    && forall j | i < j < |fields| && fields[j].0 == fields[i].0 :: !fields[j].1.JNum?
  }

  /** The map has what becomes of each label's last number, and no other label. */
  ghost predicate LastNumbersAre(m: TenorMap, fields: seq<(string, Json)>, figure: (string, real) -> real)
  {
    && (forall i | LastUnder(fields, i) :: fields[i].0 in m && m[fields[i].0] == figure(fields[i].0, fields[i].1.n))
    && (forall t | t in m :: exists i :: LastUnder(fields, i) && fields[i].0 == t)
  }

  /** What becomes of all numbers, repeated labels included. */
  function Combined(fields: seq<(string, Json)>, figure: (string, real) -> real): real {
    if fields == [] then 0.0
    else
      var last := fields[|fields| - 1];
      Combined(fields[..|fields| - 1], figure) + if last.1.JNum? then figure(last.0, last.1.n) else 0.0
  }

  ghost predicate LabelledFigures(d: Doc, fields: seq<(string, Json)>, figure: (string, real) -> real) {
    d.perTenor.Some? && LastNumbersAre(d.perTenor.value, fields, figure) && d.value == Some(Combined(fields, figure))
  }

  predicate NoValue(d: Doc) { d.value.None? && d.perTenor.None? }

  predicate NoCurvature(d: Doc) {
    d.cvrUp.None? && d.cvrDown.None? && d.cvrUpPerTenor.None? && d.cvrDownPerTenor.None?
  }

  /** The row's tenor attribute is a list of texts. */
  predicate OwnLabels(tenor: Json) { tenor.JArr? && forall i | 0 <= i < |tenor.items| :: tenor.items[i].JStr? }

  /** The items that have a label, each with the one at its position. */
  function Positions(labels: seq<string>, items: seq<Json>): seq<(string, Json)> {
    seq(if |labels| < |items| then |labels| else |items|,
        i requires 0 <= i < |labels| && i < |items| => (labels[i], items[i]))
  }

  function Texts(items: seq<Json>): seq<string> {
    seq(|items|, i requires 0 <= i < |items| => if items[i].JStr? then items[i].s else "")
  }

  /** A single number is a number, or an object of nothing but a numeric spot. */
  predicate IsSingle(rv: Json, v: real) {
    rv == JNum(v) || (rv.JObj? && |rv.fields| == 1 && rv.fields[0] == ("spot", JNum(v)))
  }

  /** The figures of a Delta or Vega row, by what becomes of a single number and of one under a label. */
  ghost predicate ValueFigures(d: Doc, raw: RawDoc, nodes: Option<seq<string>>, single: real -> real,
      figure: (string, real) -> real)
  {
    && NoCurvature(d)
    && (forall v | IsSingle(raw.riskValue, v) :: d.value == Some(single(v)) && d.perTenor.None?)
    && match raw.riskValue
       case JNum(_) => true
       case JObj(fields) => (exists v :: IsSingle(raw.riskValue, v)) || LabelledFigures(d, fields, figure)
       case JArr(items) =>
         if OwnLabels(raw.tenor) then LabelledFigures(d, Positions(Texts(raw.tenor.items), items), figure)
         else if nodes.Some? then LabelledFigures(d, Positions(nodes.value, items), figure)
         else NoValue(d)
       case _ => NoValue(d)
  }

  // ------------------------------------------------------------ one pass over labelled values

  /** What the weights of the class make of a number at a label. */
  ghost predicate FactorIs(sensType: string, table: WeightTable, bucket: string, figure: (string, real) -> real) {
    forall t, v :: Weighted(sensType, table, bucket, Some(t), v) == figure(t, v)
  }

  lemma LastUnderSnoc(before: seq<(string, Json)>, last: (string, Json), i: int)
    ensures LastUnder(before + [last], i)
            <==> if i == |before| then last.1.JNum?
                 else LastUnder(before, i) && !(last.1.JNum? && last.0 == before[i].0)
  {
    var fields := before + [last];
    assert fields[|before|] == last;
    assert forall j | 0 <= j < |before| :: fields[j] == before[j];
  }

  lemma NumberAdded(m: TenorMap, before: seq<(string, Json)>, t: string, v: real, figure: (string, real) -> real)
    requires LastNumbersAre(m, before, figure)
    ensures LastNumbersAre(m[t := figure(t, v)], before + [(t, JNum(v))], figure)
  {
    var last, after := (t, JNum(v)), m[t := figure(t, v)];
    var fields := before + [last];
    forall i | LastUnder(fields, i)
      ensures fields[i].0 in after && after[fields[i].0] == figure(fields[i].0, fields[i].1.n)
    {
      LastUnderSnoc(before, last, i);
      if i < |before| { assert LastUnder(before, i) && fields[i] == before[i] && before[i].0 != t; }
    }
    forall k | k in after ensures exists i :: LastUnder(fields, i) && fields[i].0 == k {
      if k == t {
        LastUnderSnoc(before, last, |before|);
        assert LastUnder(fields, |before|) && fields[|before|].0 == k;
      } else {
        var i :| LastUnder(before, i) && before[i].0 == k;
        LastUnderSnoc(before, last, i);
        assert LastUnder(fields, i) && fields[i].0 == k;
      }
    }
  }

  lemma OtherAdded(m: TenorMap, before: seq<(string, Json)>, last: (string, Json), figure: (string, real) -> real)
    requires LastNumbersAre(m, before, figure) && !last.1.JNum?
    ensures LastNumbersAre(m, before + [last], figure)
  {
    var fields := before + [last];
    forall i | LastUnder(fields, i) ensures fields[i].0 in m && m[fields[i].0] == figure(fields[i].0, fields[i].1.n) {
      LastUnderSnoc(before, last, i);
      assert LastUnder(before, i) && fields[i] == before[i];
    }
    forall k | k in m ensures exists i :: LastUnder(fields, i) && fields[i].0 == k {
      var i :| LastUnder(before, i) && before[i].0 == k;
      LastUnderSnoc(before, last, i);
      assert LastUnder(fields, i) && fields[i].0 == k;
    }
  }

  lemma {:induction false} FieldFigures(fields: seq<(string, Json)>, sensType: string, table: WeightTable,
      bucket: string, figure: (string, real) -> real)
    requires FactorIs(sensType, table, bucket, figure)
    ensures LastNumbersAre(Written(FieldEntries(fields, sensType, table, bucket)), fields, figure)
    ensures Added(FieldEntries(fields, sensType, table, bucket)) == Combined(fields, figure)
  {
    if fields != [] {
      var before, last := fields[..|fields| - 1], fields[|fields| - 1];
      assert fields == before + [last];
      FieldFigures(before, sensType, table, bucket, figure);
      FieldStep(before, last, sensType, table, bucket, figure);
    }
  }

  lemma FieldStep(before: seq<(string, Json)>, last: (string, Json), sensType: string, table: WeightTable,
      bucket: string, figure: (string, real) -> real)
    requires FactorIs(sensType, table, bucket, figure)
    requires LastNumbersAre(Written(FieldEntries(before, sensType, table, bucket)), before, figure)
    requires Added(FieldEntries(before, sensType, table, bucket)) == Combined(before, figure)
    ensures LastNumbersAre(Written(FieldEntries(before + [last], sensType, table, bucket)), before + [last], figure)
    ensures Added(FieldEntries(before + [last], sensType, table, bucket)) == Combined(before + [last], figure)
  {
    var fields, entries := before + [last], FieldEntries(before, sensType, table, bucket);
    assert fields[..|before|] == before;
    FilterMapSnoc(WeighField(sensType, table, bucket), before, last);
    match last.1 {
      case JNum(v) =>
        assert Weighted(sensType, table, bucket, Some(last.0), v) == figure(last.0, v);
        WrittenSnoc(entries, (last.0, figure(last.0, v)));
        NumberAdded(Written(entries), before, last.0, v, figure);
      case _ => OtherAdded(Written(entries), before, last, figure);
    }
  }

  lemma {:induction false} ZippedPositions(labels: seq<string>, items: seq<Json>)
    ensures Zip(labels, items) == Positions(labels, items)
  {
    if labels != [] && items != [] {
      ZippedPositions(labels[1..], items[1..]);
      assert Positions(labels, items) == [(labels[0], items[0])] + Positions(labels[1..], items[1..]);
    }
  }

  lemma LabelsAreTexts(tenor: Json, nodes: Option<seq<string>>)
    ensures ArrayLabels(tenor, nodes) == if OwnLabels(tenor) then Some(Texts(tenor.items)) else nodes
  {
    if OwnLabels(tenor) {
      assert ArrayLabels(tenor, nodes).value == Texts(tenor.items);
    }
  }

  // ------------------------------------------------------------ rows

  predicate HasClass(raw: RawDoc, schema: Schema) { raw.riskClass != "" && raw.riskClass in schema }

  /** Weighed by the value branch: everything but Curvature objects. */
  predicate IsValueRow(raw: RawDoc) { raw.sensType != "Curvature" || !raw.riskValue.JObj? }

  ghost predicate Makes(raw: RawDoc, cfg: ClassConfig, single: real -> real, figure: (string, real) -> real) {
    && (forall v :: Weighted(raw.sensType, cfg.table, raw.bucket, None, v) == single(v))
    && FactorIs(raw.sensType, cfg.table, raw.bucket, figure)
  }

  lemma SingleValue(raw: RawDoc, schema: Schema, single: real -> real, figure: (string, real) -> real, v: real)
    requires HasClass(raw, schema) && IsValueRow(raw) && Makes(raw, schema[raw.riskClass], single, figure)
    requires IsSingle(raw.riskValue, v)
    ensures Enrich(raw, schema).value == Some(single(v)) && Enrich(raw, schema).perTenor.None?
  {
    var cfg := schema[raw.riskClass];
    assert Weighted(raw.sensType, cfg.table, raw.bucket, None, v) == single(v);
    if raw.riskValue.JObj? { assert raw.riskValue.fields[0].1 == JNum(v); }
  }

  lemma ObjectValue(raw: RawDoc, schema: Schema, single: real -> real, figure: (string, real) -> real)
    requires HasClass(raw, schema) && IsValueRow(raw) && Makes(raw, schema[raw.riskClass], single, figure)
    requires raw.riskValue.JObj? && forall v :: !IsSingle(raw.riskValue, v)
    ensures LabelledFigures(Enrich(raw, schema), raw.riskValue.fields, figure)
  {
    var fields := raw.riskValue.fields;
    FieldFigures(fields, raw.sensType, schema[raw.riskClass].table, raw.bucket, figure);
    var v := if |fields| == 1 && fields[0].1.JNum? then fields[0].1.n else 0.0;
    assert !IsSingle(raw.riskValue, v);
  }

  lemma ArrayValue(raw: RawDoc, schema: Schema, single: real -> real, figure: (string, real) -> real)
    requires HasClass(raw, schema) && IsValueRow(raw) && Makes(raw, schema[raw.riskClass], single, figure)
    requires raw.riskValue.JArr?
    ensures ValueFigures(Enrich(raw, schema), raw, schema[raw.riskClass].tenorNodes, single, figure)
  {
    var cfg, items := schema[raw.riskClass], raw.riskValue.items;
    LabelsAreTexts(raw.tenor, cfg.tenorNodes);
    var labels := ArrayLabels(raw.tenor, cfg.tenorNodes);
    if labels.Some? {
      ZippedPositions(labels.value, items);
      FieldFigures(Positions(labels.value, items), raw.sensType, cfg.table, raw.bucket, figure);
    }
  }

  lemma ValueRow(raw: RawDoc, schema: Schema, single: real -> real, figure: (string, real) -> real)
    requires HasClass(raw, schema) && IsValueRow(raw) && Makes(raw, schema[raw.riskClass], single, figure)
    ensures ValueFigures(Enrich(raw, schema), raw, schema[raw.riskClass].tenorNodes, single, figure)
  {
    if raw.riskValue.JArr? {
      ArrayValue(raw, schema, single, figure);
    } else {
      forall v | IsSingle(raw.riskValue, v)
        ensures Enrich(raw, schema).value == Some(single(v)) && Enrich(raw, schema).perTenor.None?
      {
        SingleValue(raw, schema, single, figure, v);
      }
      if raw.riskValue.JObj? && forall v :: !IsSingle(raw.riskValue, v) { ObjectValue(raw, schema, single, figure); }
    }
  }

  /** Vega rows, and Curvature rows that are no objects, keep their numbers as they are. */
  lemma UnweightedRow(raw: RawDoc, schema: Schema)
    requires HasClass(raw, schema) && (raw.sensType == "Vega" || (raw.sensType == "Curvature" && !raw.riskValue.JObj?))
    ensures ValueFigures(Enrich(raw, schema), raw, schema[raw.riskClass].tenorNodes, v => v, (_, v) => v)
  {
    ValueRow(raw, schema, v => v, (_, v) => v);
  }

  predicate IsWeighedType(sensType: string) { sensType != "Vega" && sensType != "Curvature" }

  /** Delta rows, and rows of an unknown type, with one weight for all labels. */
  lemma ConstantWeightRow(raw: RawDoc, schema: Schema, c: real)
    requires HasClass(raw, schema) && IsWeighedType(raw.sensType) && schema[raw.riskClass].table == ConstantWeight(c)
    ensures ValueFigures(Enrich(raw, schema), raw, schema[raw.riskClass].tenorNodes, v => c * v, (_, v) => c * v)
  {
    ValueRow(raw, schema, v => c * v, (_, v) => c * v);
  }

  /** With a weight for each bucket: the row's, or nothing for a bucket without an entry. */
  lemma BucketWeightRow(raw: RawDoc, schema: Schema, byBucket: TenorMap)
    requires HasClass(raw, schema) && IsWeighedType(raw.sensType) && schema[raw.riskClass].table == ByBucket(byBucket)
    ensures var b := raw.bucket;
            ValueFigures(Enrich(raw, schema), raw, schema[raw.riskClass].tenorNodes,
                         v => if b in byBucket then byBucket[b] * v else 0.0,
                         (_, v) => if b in byBucket then byBucket[b] * v else 0.0)
  {
    var b := raw.bucket;
    ValueRow(raw, schema, v => if b in byBucket then byBucket[b] * v else 0.0,
        (_, v) => if b in byBucket then byBucket[b] * v else 0.0);
  }

  /** With a weight for each tenor: that of the label, nothing for a label without an entry or a single number. */
  lemma TenorWeightRow(raw: RawDoc, schema: Schema, byTenor: TenorMap)
    requires HasClass(raw, schema) && IsWeighedType(raw.sensType) && schema[raw.riskClass].table == ByTenor(byTenor)
    ensures ValueFigures(Enrich(raw, schema), raw, schema[raw.riskClass].tenorNodes, _ => 0.0,
                         (t, v) => if t in byTenor then byTenor[t] * v else 0.0)
  {
    ValueRow(raw, schema, _ => 0.0, (t, v) => if t in byTenor then byTenor[t] * v else 0.0);
  }

  /** Without a table every figure is zero. */
  lemma NoTableRow(raw: RawDoc, schema: Schema)
    requires HasClass(raw, schema) && IsWeighedType(raw.sensType) && schema[raw.riskClass].table == NoTable
    ensures ValueFigures(Enrich(raw, schema), raw, schema[raw.riskClass].tenorNodes, _ => 0.0, (_, _) => 0.0)
  {
    ValueRow(raw, schema, _ => 0.0, (_, _) => 0.0);
  }

  // ------------------------------------------------------------ Curvature

  /** The entry an object is read at under a name. */
  predicate FirstUnder(fields: seq<(string, Json)>, i: int, name: string) {
    0 <= i < |fields| && fields[i].0 == name && forall j | 0 <= j < i :: fields[j].0 != name
  }

  /** What an object holds under a name. */
  ghost predicate Holds(fields: seq<(string, Json)>, name: string, j: Json) {
    exists i :: FirstUnder(fields, i, name) && fields[i].1 == j
  }

  lemma {:induction false} LookupFirst(fields: seq<(string, Json)>, name: string) returns (i: int)
    ensures 0 <= i <= |fields| && forall j | 0 <= j < i :: fields[j].0 != name
    ensures Lookup(fields, name) == if i < |fields| then fields[i].1 else JNull
    ensures i < |fields| ==> fields[i].0 == name
  {
    if fields == [] || fields[0].0 == name {
      i := 0;
    } else {
      i := LookupFirst(fields[1..], name);
      i := i + 1;
    }
  }

  lemma LookupHolds(fields: seq<(string, Json)>, name: string, j: Json)
    requires Holds(fields, name, j)
    ensures Lookup(fields, name) == j
  {
    var k :| FirstUnder(fields, k, name) && fields[k].1 == j;
    var i := LookupFirst(fields, name);
    assert i == k;
  }

  /** The number at a position of a leg, zero if there is none. */
  function LegNumber(j: Json): real { if j.JNum? then j.n else 0.0 }

  function LegTotal(items: seq<Json>): real {
    if items == [] then 0.0 else LegTotal(items[..|items| - 1]) + LegNumber(items[|items| - 1])
  }

  /** The last position of its node among the first n. */
  predicate LastNode(nodes: seq<string>, n: nat, i: int)
    requires n <= |nodes|
  {
    0 <= i < n && forall j | i < j < n :: nodes[j] != nodes[i]
  }

  /** A leg against its first n nodes: each node has the number at its last position, and the total has all of them. */
  ghost predicate LegFigures(m: TenorMap, total: real, nodes: seq<string>, items: seq<Json>, n: nat)
    requires n <= |nodes| && n <= |items|
  {
    && (forall i | LastNode(nodes, n, i) :: nodes[i] in m && m[nodes[i]] == LegNumber(items[i]))
    && (forall t | t in m :: exists i :: LastNode(nodes, n, i) && nodes[i] == t)
    && total == LegTotal(items[..n])
  }

  lemma LastNodeSnoc(nodes: seq<string>, n: nat, i: int)
    requires n < |nodes| && 0 <= i < n
    ensures LastNode(nodes, n + 1, i) <==> LastNode(nodes, n, i) && nodes[i] != nodes[n]
  {
  }

  lemma LegSnoc(m: TenorMap, total: real, nodes: seq<string>, items: seq<Json>, n: nat)
    requires n < |nodes| && n < |items| && LegFigures(m, total, nodes, items, n)
    ensures LegFigures(m[nodes[n] := LegNumber(items[n])], total + LegNumber(items[n]), nodes, items, n + 1)
  {
    var after := m[nodes[n] := LegNumber(items[n])];
    assert items[..n + 1][..n] == items[..n];
    forall i | LastNode(nodes, n + 1, i) ensures nodes[i] in after && after[nodes[i]] == LegNumber(items[i]) {
      if i < n { LastNodeSnoc(nodes, n, i); }
    }
    forall t | t in after ensures exists i :: LastNode(nodes, n + 1, i) && nodes[i] == t {
      if t == nodes[n] {
        assert LastNode(nodes, n + 1, n);
      } else {
        var i :| LastNode(nodes, n, i) && nodes[i] == t;
        LastNodeSnoc(nodes, n, i);
      }
    }
  }

  lemma {:induction false} LegWritten(nodes: seq<string>, items: seq<Json>, n: nat, table: WeightTable, bucket: string)
    requires n <= |nodes| && n <= |items|
    ensures var entries := CvrEntries(nodes, items, n, table, bucket);
            LegFigures(Written(entries), Added(entries), nodes, items, n)
  {
    if n > 0 {
      var before := CvrEntries(nodes, items, n - 1, table, bucket);
      LegWritten(nodes, items, n - 1, table, bucket);
      assert CvrEntries(nodes, items, n, table, bucket) == before + [(nodes[n - 1], LegNumber(items[n - 1]))];
      WrittenSnoc(before, (nodes[n - 1], LegNumber(items[n - 1])));
      LegSnoc(Written(before), Added(before), nodes, items, n - 1);
    }
  }

  /** A Curvature object: the numbers under cvr_up are the up figures, those under cvr_down the down ones. */
  ghost predicate CurvatureFigures(d: Doc, up: Json, down: Json, nodes: Option<seq<string>>) {
    if up.JArr? && down.JArr? && nodes.Some? then
      var n := MinLength(|up.items|, |down.items|, |nodes.value|);
      && n <= |up.items| && n <= |down.items| && n <= |nodes.value|
      && (n == |up.items| || n == |down.items| || n == |nodes.value|)
      && d.cvrUp.Some? && d.cvrDown.Some? && d.cvrUpPerTenor.Some? && d.cvrDownPerTenor.Some?
      && LegFigures(d.cvrUpPerTenor.value, d.cvrUp.value, nodes.value, up.items, n)
      && LegFigures(d.cvrDownPerTenor.value, d.cvrDown.value, nodes.value, down.items, n)
    else if up.JNum? && down.JNum? then
      d.cvrUp == Some(up.n) && d.cvrDown == Some(down.n) && d.cvrUpPerTenor.None? && d.cvrDownPerTenor.None?
    else NoCurvature(d)
  }

  /** Curvature objects, whatever the class's weights. */
  lemma CurvatureRow(raw: RawDoc, schema: Schema, up: Json, down: Json)
    requires HasClass(raw, schema) && raw.sensType == "Curvature" && raw.riskValue.JObj?
    requires Holds(raw.riskValue.fields, "cvr_up", up) && Holds(raw.riskValue.fields, "cvr_down", down)
    ensures var d := Enrich(raw, schema);
            NoValue(d) && CurvatureFigures(d, up, down, schema[raw.riskClass].tenorNodes)
  {
    var cfg := schema[raw.riskClass];
    LookupHolds(raw.riskValue.fields, "cvr_up", up);
    LookupHolds(raw.riskValue.fields, "cvr_down", down);
    if up.JArr? && down.JArr? && cfg.tenorNodes.Some? {
      var n := MinLength(|up.items|, |down.items|, |cfg.tenorNodes.value|);
      LegWritten(cfg.tenorNodes.value, up.items, n, cfg.table, raw.bucket);
      LegWritten(cfg.tenorNodes.value, down.items, n, cfg.table, raw.bucket);
    }
  }

  /** An object without one of the legs, and a row of an unknown class, have no figure. */
  lemma NoFigureRow(raw: RawDoc, schema: Schema)
    requires !HasClass(raw, schema)
             || (raw.sensType == "Curvature" && raw.riskValue.JObj?
                 && ((forall f | f in raw.riskValue.fields :: f.0 != "cvr_up")
                     || (forall f | f in raw.riskValue.fields :: f.0 != "cvr_down")))
    ensures NoValue(Enrich(raw, schema)) && NoCurvature(Enrich(raw, schema))
  {
    if HasClass(raw, schema) {
      var i := LookupFirst(raw.riskValue.fields, "cvr_up");
      var j := LookupFirst(raw.riskValue.fields, "cvr_down");
      assert i == |raw.riskValue.fields| || raw.riskValue.fields[i] in raw.riskValue.fields;
      assert j == |raw.riskValue.fields| || raw.riskValue.fields[j] in raw.riskValue.fields;
    }
  }

  // ------------------------------------------------------------ attributes

  /** The attributes a HASH can hold pass through, and the calibration stamp is set. */
  lemma AttributesKept(raw: RawDoc, schema: Schema, k: string)
    ensures var tags := Enrich(raw, schema).tags;
            && "_calibration" in tags && tags["_calibration"] == "demo"
            && (k == "book" || k == "trade_id" || k == "risk_factor" || k == "trader" || k == "desk" ==>
                  (k in tags <==> k in raw.tags) && (k in tags ==> tags[k] == raw.tags[k]))
  {
    assert Enrich(raw, schema).tags == Plain(raw).tags;
  }
}
