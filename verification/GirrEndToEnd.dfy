/** GIRR Delta: per-tenor rollups against the per-tenor reference, an exchange of summation over rows and tenors. */
module GirrEndToEnd {
  import opened Json
  import opened Sums
  import opened Listing
  import opened Docs
  import opened Keys
  import opened Rollup
  import opened SbmDelta
  import opened Oracles
  import opened EndToEnd

  // ------------------------------------------------------------ labelled numbers, one label at a time

  /** The number last given under a label, zero if none: what the tenor map keeps of it. */
  function LastNumber(fields: seq<(string, Json)>, t: string): real {
    if fields == [] then 0.0
    else if fields[|fields| - 1].0 == t && fields[|fields| - 1].1.JNum? then fields[|fields| - 1].1.n
    else LastNumber(fields[..|fields| - 1], t)
  }

  function NumberUnder(t: string): ((string, Json)) -> real {
    (f: (string, Json)) => if f.0 == t then NumberOf(f.1) else 0.0
  }

  /** All numbers given under a label: what the scalar figure adds up of it. */
  function NumbersUnder(fields: seq<(string, Json)>, t: string): real { SumBy(NumberUnder(t), fields) }

  function AtOf(m: TenorMap): string -> real { (t: string) => if t in m then m[t] else 0.0 }

  lemma WsOfZero(w: real)
    ensures Ws(w, 0.0) == 0.0
  {
  }

  lemma LabelWeighed(table: WeightTable, bucket: string, t: string, v: real)
    ensures Weighted("Delta", table, bucket, Some(t), v) == Ws(WeightFor(table, bucket, Some(t)), v)
  {
  }

  lemma EntriesSnoc(before: seq<(string, Json)>, last: (string, Json), table: WeightTable, bucket: string)
    ensures var m := Written(FieldEntries(before, "Delta", table, bucket));
            Written(FieldEntries(before + [last], "Delta", table, bucket))
            == match last.1
               case JNum(v) => m[last.0 := Ws(WeightFor(table, bucket, Some(last.0)), v)]
               case _ => m
  {
    var entries := FieldEntries(before, "Delta", table, bucket);
    FilterMapSnoc(WeighField("Delta", table, bucket), before, last);
    if last.1.JNum? {
      LabelWeighed(table, bucket, last.0, last.1.n);
      WrittenSnoc(entries, (last.0, Ws(WeightFor(table, bucket, Some(last.0)), last.1.n)));
    }
  }

  lemma LastNumberSnoc(before: seq<(string, Json)>, last: (string, Json), t: string)
    ensures LastNumber(before + [last], t) == if last.0 == t && last.1.JNum? then last.1.n else LastNumber(before, t)
  {
    assert (before + [last])[..|before|] == before;
  }

  /** The weighing loop keeps the last number of every label, weighed. */
  lemma {:induction false} LastNumbersWritten(fields: seq<(string, Json)>, table: WeightTable, bucket: string,
      t: string)
    ensures AtOf(Written(FieldEntries(fields, "Delta", table, bucket)))(t)
            == Ws(WeightFor(table, bucket, Some(t)), LastNumber(fields, t))
  {
    if fields == [] {
      WsOfZero(WeightFor(table, bucket, Some(t)));
    } else {
      var before, last := fields[..|fields| - 1], fields[|fields| - 1];
      LastNumbersWritten(before, table, bucket, t);
      LastNumberSnoc(before, last, t);
      EntriesSnoc(before, last, table, bucket);
      assert fields == before + [last];
    }
  }

  ghost predicate OnlyAt(fields: seq<(string, Json)>, t: string, k: nat) {
    forall i | 0 <= i < |fields| && fields[i].0 == t :: i == k
  }

  lemma {:induction false} OnlyNumber(fields: seq<(string, Json)>, t: string, k: nat)
    requires OnlyAt(fields, t, k)
    ensures var v := if k < |fields| && fields[k].0 == t then NumberOf(fields[k].1) else 0.0;
            LastNumber(fields, t) == NumbersUnder(fields, t) == v
  {
    if fields != [] {
      var before, last := fields[..|fields| - 1], fields[|fields| - 1];
      assert fields == before + [last] && forall i | 0 <= i < |before| :: before[i] == fields[i];
      OnlyNumber(before, t, k);
      SumBySnoc(NumberUnder(t), before, last);
    }
  }

  lemma {:induction false} LookedUp(fields: seq<(string, Json)>, t: string)
    requires DistinctKeys(fields)
    ensures LastNumber(fields, t) == NumbersUnder(fields, t) == NumberOf(Lookup(fields, t))
  {
    var k := FirstUnder(fields, t);
    OnlyNumber(fields, t, k);
  }

  /** Where a label is looked up, the length if nowhere. */
  ghost function FirstUnder(fields: seq<(string, Json)>, t: string): (k: nat)
    ensures k <= |fields| && forall i | 0 <= i < k :: fields[i].0 != t
    ensures if k < |fields| then fields[k].0 == t && Lookup(fields, t) == fields[k].1 else Lookup(fields, t) == JNull
  {
    if fields == [] || fields[0].0 == t then 0 else FirstUnder(fields[1..], t) + 1
  }

  lemma {:induction false} ZipKeys(labels: seq<string>, items: seq<Json>)
    ensures |Zip(labels, items)| == MinInt(|labels|, |items|)
    ensures forall i | 0 <= i < |Zip(labels, items)| :: Zip(labels, items)[i] == (labels[i], items[i])
  {
    if labels != [] && items != [] {
      ZipKeys(labels[1..], items[1..]);
    }
  }

  // ------------------------------------------------------------ when labels and positions agree

  /** Label t stands at position k and nowhere else. */
  ghost predicate StandsAt(labels: seq<string>, t: string, k: nat) {
    k < |labels| && labels[k] == t && forall i | 0 <= i < |labels| && labels[i] == t :: i == k
  }

  lemma ReadAlike(labels: seq<string>, items: seq<Json>, t: string, k: nat)
    requires StandsAt(labels, t, k)
    ensures LastNumber(Zip(labels, items), t) == NumbersUnder(Zip(labels, items), t) == NumAt(items, k)
  {
    ZipKeys(labels, items);
    OnlyNumber(Zip(labels, items), t, k);
  }

  function OneNumber(n: nat, j: nat): seq<Json> { seq(n, i => if i == j then JNum(1.0) else JNull) }

  lemma {:induction false} SingleNumber(fields: seq<(string, Json)>, t: string, j: nat)
    requires forall i | 0 <= i < |fields| && i != j :: !fields[i].1.JNum?
    ensures LastNumber(fields, t) == if j < |fields| && fields[j].0 == t then NumberOf(fields[j].1) else 0.0
  {
    if fields != [] {
      var before := fields[..|fields| - 1];
      assert forall i | 0 <= i < |before| :: before[i] == fields[i];
      SingleNumber(before, t, j);
    }
  }

  /** Labels that miss, move or repeat a tenor: an array of values on which the two readings differ. */
  lemma ReadDifferently(labels: seq<string>, t: string, k: nat) returns (items: seq<Json>)
    requires !StandsAt(labels, t, k)
    ensures LastNumber(Zip(labels, items), t) != NumAt(items, k)
  {
    if k < |labels| && labels[k] == t {
      var j :| 0 <= j < |labels| && labels[j] == t && j != k;
      items := OneNumber(|labels|, j);
      ZipKeys(labels, items);
      SingleNumber(Zip(labels, items), t, j);
    } else {
      items := OneNumber(k + 1, k);
      ZipKeys(labels, items);
      SingleNumber(Zip(labels, items), t, k);
    }
  }

  /** Ingest's reading under t and the reference's at k agree for every array of values iff t stands at k alone. */
  lemma LabelsAgreeExactly(labels: seq<string>, t: string, k: nat)
    ensures (forall items :: LastNumber(Zip(labels, items), t) == NumAt(items, k)) <==> StandsAt(labels, t, k)
  {
    if StandsAt(labels, t, k) {
      forall items ensures LastNumber(Zip(labels, items), t) == NumAt(items, k) { ReadAlike(labels, items, t, k); }
    } else {
      var items := ReadDifferently(labels, t, k);
    }
  }

  // ------------------------------------------------------------ one row

  /** The reference's labels and weights are those of the class's table. */
  ghost predicate Girr(cfg: ClassConfig, tenors: seq<string>, weights: seq<real>) {
    && cfg.table.ByTenor? && |weights| == |tenors| && NoRepeats(tenors) && "spot" !in tenors
    && (forall t | t in cfg.table.byTenor :: t in tenors)
    && (forall k | 0 <= k < |tenors| :: weights[k] == WeightFor(cfg.table, "", Some(tenors[k])))
  }

  /** The labelled values ingest reads from a Delta row. */
  function RowFields(raw: RawDoc, cfg: ClassConfig): seq<(string, Json)> {
    match raw.riskValue
    case JObj(fields) => fields
    case JArr(items) =>
      (match ArrayLabels(raw.tenor, cfg.tenorNodes) case Some(labels) => Zip(labels, items) case None => [])
    case _ => []
  }

  /** The raw sensitivity of tenor t as ingest's tenor map keeps it, and as its scalar figure adds it up. */
  function KeptAt(raw: RawDoc, cfg: ClassConfig, t: string): real {
    if raw.sensType == "Delta" then LastNumber(RowFields(raw, cfg), t) else 0.0
  }

  function AddedAt(raw: RawDoc, cfg: ClassConfig, t: string): real {
    if raw.sensType == "Delta" then NumbersUnder(RowFields(raw, cfg), t) else 0.0
  }

  function KeptOf(cfg: ClassConfig, t: string): RawDoc -> real { (raw: RawDoc) => KeptAt(raw, cfg, t) }

  function AddedOf(cfg: ClassConfig, t: string): RawDoc -> real { (raw: RawDoc) => AddedAt(raw, cfg, t) }

  ghost predicate InScope(raw: RawDoc, schema: Schema, rc: string, bkt: string, tenors: seq<string>,
      weights: seq<real>) {
    rc != "" && bkt != "" && rc in schema && raw.riskClass == rc && raw.bucket == bkt
    && Girr(schema[rc], tenors, weights)
  }

  /** The row's own share of a Delta rollup field of the bucket. */
  function OwnAt(raw: RawDoc, schema: Schema, rc: string, bkt: string, tenor: Option<string>, f: Field): real {
    OwnOf(schema, DeltaGroup(rc, bkt), DeltaSlot(rc, bkt, tenor, f))(raw)
  }

  /** A row's share of a tenor rollup is the weighted number last given under that tenor. */
  lemma TenorContribution(raw: RawDoc, schema: Schema, rc: string, bkt: string, tenors: seq<string>, weights: seq<real>,
      k: nat)
    requires InScope(raw, schema, rc, bkt, tenors, weights) && k < |tenors|
    ensures OwnAt(raw, schema, rc, bkt, Some(tenors[k]), SumWs)
            == Ws(weights[k], KeptAt(raw, schema[rc], tenors[k]))
  {
    EnrichKeepsGroup(raw, schema);
    WsOfZero(weights[k]);
    var fields := RowFields(raw, schema[rc]);
    LastNumbersWritten(fields, schema[rc].table, bkt, tenors[k]);
    if LoneSpot(raw.riskValue) {
      assert tenors[k] != "spot" && LastNumber(fields[..0], tenors[k]) == 0.0;
    }
  }

  /** The row at tenor k: both sides read the same iff the weight is zero or the labelled number is the one at k. */
  lemma GirrRowExactly(raw: RawDoc, schema: Schema, rc: string, bkt: string, tenors: seq<string>, weights: seq<real>,
      k: nat)
    requires InScope(raw, schema, rc, bkt, tenors, weights) && k < |tenors|
    ensures OwnAt(raw, schema, rc, bkt, Some(tenors[k]), SumWs)
            == Ws(weights[k], SensAt(raw, k, |weights|, tenors))
            <==> weights[k] == 0.0 || KeptAt(raw, schema[rc], tenors[k]) == SensAt(raw, k, |weights|, tenors)
  {
    TenorContribution(raw, schema, rc, bkt, tenors, weights, k);
    ProductsAgree(weights[k], KeptAt(raw, schema[rc], tenors[k]), SensAt(raw, k, |weights|, tenors));
  }

  /** Rows both sides read alike: arrays whose own labels put every tenor that weighs anything in its place. */
  ghost predicate GirrShape(raw: RawDoc, cfg: ClassConfig, tenors: seq<string>, weights: seq<real>)
    requires |weights| == |tenors|
  {
    match raw.riskValue
    case JArr(_) =>
      var labels := ArrayLabels(raw.tenor, cfg.tenorNodes);
      forall k | 0 <= k < |tenors| && weights[k] != 0.0 :: labels.Some? && StandsAt(labels.value, tenors[k], k)
    case JObj(fields) => DistinctKeys(fields)
    case _ => true
  }

  lemma ShapeReadsAlike(raw: RawDoc, cfg: ClassConfig, tenors: seq<string>, weights: seq<real>, k: nat)
    requires |weights| == |tenors| && k < |tenors| && weights[k] != 0.0
             && (raw.sensType == "Delta" ==> GirrShape(raw, cfg, tenors, weights))
    ensures KeptAt(raw, cfg, tenors[k]) == AddedAt(raw, cfg, tenors[k]) == SensAt(raw, k, |weights|, tenors)
  {
    if raw.sensType == "Delta" {
      match raw.riskValue {
        case JArr(items) =>
          var labels := ArrayLabels(raw.tenor, cfg.tenorNodes);
          assert StandsAt(labels.value, tenors[k], k);
          ReadAlike(labels.value, items, tenors[k], k);
        case JObj(fields) => LookedUp(fields, tenors[k]);
        case _ =>
      }
    }
  }

  ghost predicate ReadsAlike(raw: RawDoc, schema: Schema, tenors: seq<string>, weights: seq<real>, k: nat)
    requires k < |tenors| == |weights|
  {
    OwnAt(raw, schema, raw.riskClass, raw.bucket, Some(tenors[k]), SumWs)
    == Ws(weights[k], SensAt(raw, k, |weights|, tenors))
  }

  function ArrayRow(rc: string, bkt: string, items: seq<Json>, tenor: Json): RawDoc {
    RawDoc(Some(rc), Some(bkt), Some("Delta"), map[], JArr(items), tenor)
  }

  /** The labels of an array row alone decide whether its tenor map meets the reference for all values and tenors. */
  lemma ArrayRowsExactly(tenor: Json, schema: Schema, rc: string, bkt: string, tenors: seq<string>, weights: seq<real>)
    requires rc != "" && bkt != "" && rc in schema && Girr(schema[rc], tenors, weights)
    ensures (forall items, k: nat | k < |tenors| ::
            ReadsAlike(ArrayRow(rc, bkt, items, tenor), schema, tenors, weights, k))
            <==> GirrShape(ArrayRow(rc, bkt, [], tenor), schema[rc], tenors, weights)
  {
    if GirrShape(ArrayRow(rc, bkt, [], tenor), schema[rc], tenors, weights) {
      forall items, k: nat | k < |tenors|
        ensures ReadsAlike(ArrayRow(rc, bkt, items, tenor), schema, tenors, weights, k)
      {
        var raw := ArrayRow(rc, bkt, items, tenor);
        GirrRowExactly(raw, schema, rc, bkt, tenors, weights, k);
        if weights[k] != 0.0 { ShapeReadsAlike(raw, schema[rc], tenors, weights, k); }
      }
    } else {
      var labels := ArrayLabels(tenor, schema[rc].tenorNodes);
      var k :| 0 <= k < |tenors| && weights[k] != 0.0 && !(labels.Some? && StandsAt(labels.value, tenors[k], k));
      var items := OneNumber(k + 1, k);
      assert NumAt(items, k) == 1.0;
      if labels.Some? { items := ReadDifferently(labels.value, tenors[k], k); }
      assert SensAt(ArrayRow(rc, bkt, items, tenor), k, |weights|, tenors) == NumAt(items, k);
      GirrRowExactly(ArrayRow(rc, bkt, items, tenor), schema, rc, bkt, tenors, weights, k);
      assert !ReadsAlike(ArrayRow(rc, bkt, items, tenor), schema, tenors, weights, k);
    }
  }

  /** Two values under swapped labels: the reference sees the first tenor's, ingest the second's. */
  lemma SwappedLabelsDisagree(schema: Schema, rc: string, bkt: string, tenors: seq<string>, weights: seq<real>)
    requires rc != "" && bkt != "" && rc in schema && Girr(schema[rc], tenors, weights) && |tenors| == 2
             && weights[0] != 0.0
    ensures var raw := ArrayRow(rc, bkt, [JNum(1.0), JNum(2.0)], JArr([JStr(tenors[1]), JStr(tenors[0])]));
            SensAt(raw, 0, |weights|, tenors) == 1.0 && KeptAt(raw, schema[rc], tenors[0]) == 2.0
            && !ReadsAlike(raw, schema, tenors, weights, 0)
  {
    var labels := JArr([JStr(tenors[1]), JStr(tenors[0])]);
    var own := ArrayLabels(labels, schema[rc].tenorNodes).value;
    assert own == [tenors[1], tenors[0]];
    GirrRowExactly(ArrayRow(rc, bkt, [JNum(1.0), JNum(2.0)], labels), schema, rc, bkt, tenors, weights, 0);
    ReadAlike(own, [JNum(1.0), JNum(2.0)], tenors[0], 1);
  }

  // ------------------------------------------------------------ one figure per tenor

  /** The weighted column totals of the rows, tenor by tenor. */
  function Columns(col: nat -> RawDoc -> real, rows: seq<RawDoc>, weights: seq<real>): seq<real> {
    seq(|weights|, k requires 0 <= k < |weights| => Ws(weights[k], SumBy(col(k), rows)))
  }

  function AddedColumn(cfg: ClassConfig, tenors: seq<string>): nat -> RawDoc -> real {
    (k: nat) => AddedOf(cfg, if k < |tenors| then tenors[k] else "")
  }

  lemma {:induction false} TotalPointwise(a: seq<real>, b: seq<real>, c: seq<real>)
    requires |a| == |b| == |c| && forall k | 0 <= k < |a| :: c[k] == a[k] + b[k]
    ensures Total(c) == Total(a) + Total(b)
  {
    if a != [] {
      TotalPointwise(a[1..], b[1..], c[1..]);
    }
  }

  lemma TotalOfZeros(n: nat)
    ensures Total(seq(n, _ => 0.0)) == 0.0
  {
    SumByZero(Identity, seq(n, _ => 0.0));
  }

  /** One labelled number, weighed, is the total of the column it falls in. */
  lemma OneColumn(cfg: ClassConfig, tenors: seq<string>, weights: seq<real>, bucket: string, f: (string, Json),
      xs: seq<real>)
    requires Girr(cfg, tenors, weights) && |xs| == |tenors|
    requires forall k | 0 <= k < |tenors| :: xs[k] == Ws(weights[k], NumberUnder(tenors[k])(f))
    ensures Total(xs) == WeightedNumber(cfg.table, bucket)(f)
  {
    var zeros := seq(|tenors|, _ => 0.0);
    TotalOfZeros(|tenors|);
    if f.0 in tenors {
      var k :| 0 <= k < |tenors| && tenors[k] == f.0;
      forall i | 0 <= i < |tenors| && i != k ensures xs[i] == 0.0 {
        assert tenors[i] != f.0;
        WsOfZero(weights[i]);
      }
      assert xs == zeros[k := xs[k]];
      SumByUpdate(Identity, zeros, k, xs[k]);
    } else {
      forall i | 0 <= i < |tenors| ensures xs[i] == 0.0 { WsOfZero(weights[i]); }
      assert xs == zeros;
    }
  }

  function FieldColumns(fields: seq<(string, Json)>, tenors: seq<string>, weights: seq<real>): seq<real>
    requires |weights| == |tenors|
  {
    seq(|tenors|, k requires 0 <= k < |tenors| => Ws(weights[k], NumbersUnder(fields, tenors[k])))
  }

  lemma WeighedSnoc(before: seq<(string, Json)>, last: (string, Json), t: string, w: real)
    ensures Ws(w, NumbersUnder(before + [last], t)) == Ws(w, NumbersUnder(before, t)) + Ws(w, NumberUnder(t)(last))
  {
    SumBySnoc(NumberUnder(t), before, last);
    Distribute(w, NumbersUnder(before, t), NumberUnder(t)(last));
  }

  lemma FieldColumnsSnoc(before: seq<(string, Json)>, last: (string, Json), cfg: ClassConfig, bucket: string,
      tenors: seq<string>, weights: seq<real>)
    requires Girr(cfg, tenors, weights)
    ensures Total(FieldColumns(before + [last], tenors, weights))
         == Total(FieldColumns(before, tenors, weights)) + WeightedNumber(cfg.table, bucket)(last)
  {
    var xs := seq(|tenors|, k requires 0 <= k < |tenors| => Ws(weights[k], NumberUnder(tenors[k])(last)));
    OneColumn(cfg, tenors, weights, bucket, last, xs);
    forall k | 0 <= k < |tenors|
      ensures FieldColumns(before + [last], tenors, weights)[k] == FieldColumns(before, tenors, weights)[k] + xs[k]
    {
      WeighedSnoc(before, last, tenors[k], weights[k]);
    }
    TotalPointwise(FieldColumns(before, tenors, weights), xs, FieldColumns(before + [last], tenors, weights));
  }

  /** The weighted total of all labelled numbers, exchanged into one sum per tenor. */
  lemma {:induction false} ExchangedTotal(fields: seq<(string, Json)>, cfg: ClassConfig, bucket: string,
      tenors: seq<string>, weights: seq<real>)
    requires Girr(cfg, tenors, weights)
    ensures WeightedTotal(fields, cfg.table, bucket) == Total(FieldColumns(fields, tenors, weights))
  {
    if fields == [] {
      forall k | 0 <= k < |tenors| ensures FieldColumns(fields, tenors, weights)[k] == 0.0 { WsOfZero(weights[k]); }
      SumByZero(Identity, FieldColumns(fields, tenors, weights));
    } else {
      var before, last := fields[..|fields| - 1], fields[|fields| - 1];
      assert fields == before + [last];
      ExchangedTotal(before, cfg, bucket, tenors, weights);
      SumBySnoc(WeightedNumber(cfg.table, bucket), before, last);
      FieldColumnsSnoc(before, last, cfg, bucket, tenors, weights);
    }
  }

  lemma SpotWeighsNothing(raw: RawDoc, cfg: ClassConfig, bucket: string, tenors: seq<string>, weights: seq<real>)
    requires Girr(cfg, tenors, weights) && LoneSpot(raw.riskValue)
    ensures WeightedTotal(raw.riskValue.fields, cfg.table, bucket) == 0.0
  {
    var fields := raw.riskValue.fields;
    assert WeightFor(cfg.table, bucket, Some("spot")) == 0.0;
    assert WeightedNumber(cfg.table, bucket)(fields[0]) == 0.0 * fields[0].1.n == 0.0;
    assert fields == [] + [fields[0]];
    SumBySnoc(WeightedNumber(cfg.table, bucket), [], fields[0]);
  }

  lemma BaseFigure(raw: RawDoc, schema: Schema, rc: string, bkt: string, tenors: seq<string>, weights: seq<real>)
    requires InScope(raw, schema, rc, bkt, tenors, weights)
    ensures OwnAt(raw, schema, rc, bkt, None, SumWs)
         == if raw.sensType == "Delta" then WeightedTotal(RowFields(raw, schema[rc]), schema[rc].table, bkt) else 0.0
  {
    EnrichKeepsGroup(raw, schema);
    if raw.sensType == "Delta" {
      EnrichedFigure(raw, schema);
      var v := if raw.riskValue.JNum? then raw.riskValue.n
          else if LoneSpot(raw.riskValue) then raw.riskValue.fields[0].1.n else 0.0;
      assert Ws(ScalarWeight(schema, rc, bkt), v) == 0.0 * v == 0.0;
      if LoneSpot(raw.riskValue) { SpotWeighsNothing(raw, schema[rc], bkt, tenors, weights); }
    }
  }

  lemma BaseContribution(raw: RawDoc, schema: Schema, rc: string, bkt: string, tenors: seq<string>, weights: seq<real>,
      xs: seq<real>)
    requires InScope(raw, schema, rc, bkt, tenors, weights)
    requires |xs| == |weights|
             && forall k | 0 <= k < |xs| :: xs[k] == Ws(weights[k], AddedAt(raw, schema[rc], tenors[k]))
    ensures OwnAt(raw, schema, rc, bkt, None, SumWs) == Total(xs)
  {
    BaseFigure(raw, schema, rc, bkt, tenors, weights);
    if raw.sensType == "Delta" {
      ExchangedTotal(RowFields(raw, schema[rc]), schema[rc], bkt, tenors, weights);
      assert xs == FieldColumns(RowFields(raw, schema[rc]), tenors, weights);
    } else {
      forall k | 0 <= k < |xs| ensures xs[k] == 0.0 { WsOfZero(weights[k]); }
      SumByZero(Identity, xs);
    }
  }

  function OneIf(b: bool): real { if b then 1.0 else 0.0 }

  /** Bare numbers, which only ingest counts. */
  function BareOf(): RawDoc -> real { (raw: RawDoc) => OneIf(raw.sensType == "Delta" && raw.riskValue.JNum?) }

  /** Arrays without labels, which only the reference counts. */
  function UnlabelledOf(cfg: ClassConfig): RawDoc -> real {
    (raw: RawDoc) =>
        OneIf(raw.sensType == "Delta" && raw.riskValue.JArr? && ArrayLabels(raw.tenor, cfg.tenorNodes).None?)
  }

  function OnlyIngestCounts(cfg: ClassConfig): RawDoc -> real {
    (raw: RawDoc) => BareOf()(raw) - UnlabelledOf(cfg)(raw)
  }

  lemma CountContribution(raw: RawDoc, schema: Schema, rc: string, bkt: string, tenors: seq<string>, weights: seq<real>)
    requires InScope(raw, schema, rc, bkt, tenors, weights)
    ensures OwnAt(raw, schema, rc, bkt, None, Count)
         == CountedOf(|weights|, tenors)(raw) + OnlyIngestCounts(schema[rc])(raw)
  {
    EnrichKeepsGroup(raw, schema);
    assert OnlyIngestCounts(schema[rc])(raw) == BareOf()(raw) - UnlabelledOf(schema[rc])(raw);
    if raw.sensType == "Delta" { EnrichedFigure(raw, schema); }
  }

  // ------------------------------------------------------------ labels and the base figure

  /** Values weighed by their position. */
  function Dot(w: nat -> real, items: seq<Json>): real {
    if items == [] then 0.0 else Dot(w, items[..|items| - 1]) + Ws(w(|items| - 1), NumberOf(items[|items| - 1]))
  }

  /** The weight of the label at a position, nothing where there is none. */
  function LabelWeight(labels: Option<seq<string>>, table: WeightTable, bucket: string): nat -> real {
    (k: nat) =>
      if labels.Some? && k < |labels.value| then WeightFor(table, bucket, Some(labels.value[k])) else 0.0
  }

  function PositionWeight(weights: seq<real>): nat -> real { (k: nat) => if k < |weights| then weights[k] else 0.0 }

  /** What the reference makes of the row alone. */
  function ReferenceTotal(raw: RawDoc, tenors: seq<string>, weights: seq<real>): real {
    Total(TenorWs([raw], weights, tenors))
  }

  lemma {:induction false} DotSame(w: nat -> real, v: nat -> real, items: seq<Json>)
    requires forall k | 0 <= k < |items| :: w(k) == v(k)
    ensures Dot(w, items) == Dot(v, items)
  {
    if items != [] {
      DotSame(w, v, items[..|items| - 1]);
    }
  }

  lemma {:induction false} DotOfNothing(w: nat -> real, items: seq<Json>)
    requires forall i | 0 <= i < |items| :: items[i] == JNull
    ensures Dot(w, items) == 0.0
  {
    if items != [] {
      DotOfNothing(w, items[..|items| - 1]);
      WsOfZero(w(|items| - 1));
    }
  }

  lemma DotOfOne(w: nat -> real, k: nat)
    ensures Dot(w, OneNumber(k + 1, k)) == w(k)
  {
    var items := OneNumber(k + 1, k);
    DotOfNothing(w, items[..k]);
  }

  lemma {:induction false} ZipIsDot(labels: seq<string>, items: seq<Json>, table: WeightTable, bucket: string)
    ensures WeightedTotal(Zip(labels, items), table, bucket) == Dot(LabelWeight(Some(labels), table, bucket), items)
  {
    ZipKeys(labels, items);
    if items != [] {
      var before, last := items[..|items| - 1], items[|items| - 1];
      ZipIsDot(labels, before, table, bucket);
      ZipKeys(labels, before);
      WsOfZero(NumberOf(last));
      if |items| <= |labels| {
        var f := (labels[|items| - 1], last);
        assert Zip(labels, items) == Zip(labels, before) + [f];
        SumBySnoc(WeightedNumber(table, bucket), Zip(labels, before), f);
      } else {
        assert Zip(labels, items) == Zip(labels, before);
        assert Ws(0.0, NumberOf(last)) == 0.0 * NumberOf(last) == 0.0;
      }
    }
  }

  function PositionTerms(items: seq<Json>, weights: seq<real>): seq<real> {
    seq(|weights|, k requires 0 <= k < |weights| => Ws(weights[k], NumAt(items, k)))
  }

  lemma {:induction false} PositionsAreDot(items: seq<Json>, weights: seq<real>)
    ensures Total(PositionTerms(items, weights)) == Dot(PositionWeight(weights), items)
  {
    var terms := PositionTerms(items, weights);
    if items == [] {
      forall k | 0 <= k < |weights| ensures terms[k] == 0.0 { WsOfZero(weights[k]); }
      SumByZero(Identity, terms);
    } else {
      var n := |items| - 1;
      var before := PositionTerms(items[..n], weights);
      PositionsAreDot(items[..n], weights);
      if n < |weights| {
        WsOfZero(weights[n]);
        assert terms == before[n := terms[n]];
        SumByUpdate(Identity, before, n, terms[n]);
      } else {
        assert terms == before;
        assert Ws(0.0, NumberOf(items[n])) == 0.0 * NumberOf(items[n]) == 0.0;
      }
    }
  }

  lemma ArrayReferenceTotal(rc: string, bkt: string, items: seq<Json>, tenor: Json, tenors: seq<string>,
      weights: seq<real>)
    ensures ReferenceTotal(ArrayRow(rc, bkt, items, tenor), tenors, weights) == Dot(PositionWeight(weights), items)
  {
    var raw := ArrayRow(rc, bkt, items, tenor);
    PositionsAreDot(items, weights);
    forall k | 0 <= k < |weights| ensures TenorWs([raw], weights, tenors)[k] == PositionTerms(items, weights)[k] {
      assert [raw] == [] + [raw];
      SumBySnoc(SensOf(k, |weights|, tenors), [], raw);
    }
    assert TenorWs([raw], weights, tenors) == PositionTerms(items, weights);
  }

  lemma ArrayBaseFigure(rc: string, bkt: string, items: seq<Json>, tenor: Json, schema: Schema, tenors: seq<string>,
      weights: seq<real>)
    requires rc != "" && bkt != "" && rc in schema && Girr(schema[rc], tenors, weights)
    ensures OwnAt(ArrayRow(rc, bkt, items, tenor), schema, rc, bkt, None, SumWs)
            == Dot(LabelWeight(ArrayLabels(tenor, schema[rc].tenorNodes), schema[rc].table, bkt), items)
  {
    var raw, labels := ArrayRow(rc, bkt, items, tenor), ArrayLabels(tenor, schema[rc].tenorNodes);
    BaseFigure(raw, schema, rc, bkt, tenors, weights);
    if labels.Some? {
      ZipIsDot(labels.value, items, schema[rc].table, bkt);
    } else {
      forall k | 0 <= k < |items| ensures LabelWeight(labels, schema[rc].table, bkt)(k) == 0.0 {}
      WeightlessDot(LabelWeight(labels, schema[rc].table, bkt), items);
    }
  }

  lemma {:induction false} WeightlessDot(w: nat -> real, items: seq<Json>)
    requires forall k | 0 <= k < |items| :: w(k) == 0.0
    ensures Dot(w, items) == 0.0
  {
    if items != [] {
      WeightlessDot(w, items[..|items| - 1]);
      assert Ws(0.0, NumberOf(items[|items| - 1])) == 0.0 * NumberOf(items[|items| - 1]) == 0.0;
    }
  }

  ghost predicate BaseReadsAlike(raw: RawDoc, schema: Schema, tenors: seq<string>, weights: seq<real>) {
    OwnAt(raw, schema, raw.riskClass, raw.bucket, None, SumWs) == ReferenceTotal(raw, tenors, weights)
  }

  /**
   The labels of an array row alone decide whether its base figure meets the reference's for all values: each label
   weighs what its position does, and labels past the last tenor weigh nothing.
   */
  lemma BaseArrayRowsExactly(tenor: Json, schema: Schema, rc: string, bkt: string, tenors: seq<string>,
      weights: seq<real>)
    requires rc != "" && bkt != "" && rc in schema && Girr(schema[rc], tenors, weights)
    ensures (forall items :: BaseReadsAlike(ArrayRow(rc, bkt, items, tenor), schema, tenors, weights))
            <==> forall k: nat :: LabelWeight(ArrayLabels(tenor, schema[rc].tenorNodes), schema[rc].table, bkt)(k)
                                  == PositionWeight(weights)(k)
  {
    var w := LabelWeight(ArrayLabels(tenor, schema[rc].tenorNodes), schema[rc].table, bkt);
    var v := PositionWeight(weights);
    forall items
      ensures BaseReadsAlike(ArrayRow(rc, bkt, items, tenor), schema, tenors, weights)
              <==> Dot(w, items) == Dot(v, items)
    {
      ArrayBaseFigure(rc, bkt, items, tenor, schema, tenors, weights);
      ArrayReferenceTotal(rc, bkt, items, tenor, tenors, weights);
    }
    if forall k: nat :: w(k) == v(k) {
      forall items ensures Dot(w, items) == Dot(v, items) { DotSame(w, v, items); }
    } else {
      var k: nat :| w(k) != v(k);
      DotOfOne(w, k);
      DotOfOne(v, k);
      assert !BaseReadsAlike(ArrayRow(rc, bkt, OneNumber(k + 1, k), tenor), schema, tenors, weights);
    }
  }

  // ------------------------------------------------------------ all rows

  ghost predicate AllInScope(rows: seq<RawDoc>, schema: Schema, rc: string, bkt: string, tenors: seq<string>,
      weights: seq<real>) {
    forall raw | raw in rows :: InScope(raw, schema, rc, bkt, tenors, weights)
  }

  lemma WeighedFold(h: RawDoc -> real, w: real, f: RawDoc -> real, rows: seq<RawDoc>)
    requires forall raw | raw in rows :: h(raw) == Ws(w, f(raw))
    ensures SumBy(h, rows) == Ws(w, SumBy(f, rows))
  {
    SumByScale(h, w, f, rows);
  }

  lemma TenorFold(rows: seq<RawDoc>, schema: Schema, rc: string, bkt: string, tenors: seq<string>, weights: seq<real>,
      k: nat)
    requires AllInScope(rows, schema, rc, bkt, tenors, weights) && k < |tenors| == |weights| && rc in schema
    ensures SumBy(OwnOf(schema, DeltaGroup(rc, bkt), DeltaSlot(rc, bkt, Some(tenors[k]), SumWs)), rows)
         == Ws(weights[k], SumBy(KeptOf(schema[rc], tenors[k]), rows))
  {
    var h := OwnOf(schema, DeltaGroup(rc, bkt), DeltaSlot(rc, bkt, Some(tenors[k]), SumWs));
    var f := KeptOf(schema[rc], tenors[k]);
    forall raw | raw in rows
      ensures h(raw) == Ws(weights[k], f(raw))
    {
      TenorContribution(raw, schema, rc, bkt, tenors, weights, k);
    }
    WeighedFold(h, weights[k], f, rows);
  }

  lemma {:induction false} BaseFold(rows: seq<RawDoc>, schema: Schema, rc: string, bkt: string, tenors: seq<string>,
      weights: seq<real>)
    requires AllInScope(rows, schema, rc, bkt, tenors, weights) && |tenors| == |weights| && rc in schema
    ensures SumBy(OwnOf(schema, DeltaGroup(rc, bkt), DeltaSlot(rc, bkt, None, SumWs)), rows)
         == Total(Columns(AddedColumn(schema[rc], tenors), rows, weights))
  {
    var h, col := OwnOf(schema, DeltaGroup(rc, bkt), DeltaSlot(rc, bkt, None, SumWs)), AddedColumn(schema[rc], tenors);
    if rows == [] {
      forall k | 0 <= k < |weights| ensures Columns(col, rows, weights)[k] == 0.0 {
        assert SumBy(col(k), rows) == 0.0;
        WsOfZero(weights[k]);
      }
      SumByZero(Identity, Columns(col, rows, weights));
    } else {
      var before, last := rows[..|rows| - 1], rows[|rows| - 1];
      assert rows == before + [last];
      BaseFold(before, schema, rc, bkt, tenors, weights);
      SumBySnoc(h, before, last);
      var xs := seq(|weights|, k requires 0 <= k < |weights| => Ws(weights[k], AddedAt(last, schema[rc], tenors[k])));
      BaseContribution(last, schema, rc, bkt, tenors, weights, xs);
      ColumnsSnoc(schema[rc], before, last, tenors, weights, xs);
    }
  }

  lemma ColumnsSnoc(cfg: ClassConfig, before: seq<RawDoc>, last: RawDoc, tenors: seq<string>, weights: seq<real>,
      xs: seq<real>)
    requires |xs| == |weights| == |tenors|
             && forall k | 0 <= k < |xs| :: xs[k] == Ws(weights[k], AddedAt(last, cfg, tenors[k]))
    ensures var col := AddedColumn(cfg, tenors);
            Total(Columns(col, before + [last], weights)) == Total(Columns(col, before, weights)) + Total(xs)
  {
    var col := AddedColumn(cfg, tenors);
    forall k | 0 <= k < |weights|
      ensures Columns(col, before + [last], weights)[k] == Columns(col, before, weights)[k] + xs[k]
    {
      SumBySnoc(col(k), before, last);
      Distribute(weights[k], SumBy(col(k), before), AddedAt(last, cfg, tenors[k]));
    }
    TotalPointwise(Columns(col, before, weights), xs, Columns(col, before + [last], weights));
  }

  lemma CountFold(rows: seq<RawDoc>, schema: Schema, rc: string, bkt: string, tenors: seq<string>, weights: seq<real>)
    requires AllInScope(rows, schema, rc, bkt, tenors, weights) && rc in schema
    ensures SumBy(OwnOf(schema, DeltaGroup(rc, bkt), DeltaSlot(rc, bkt, None, Count)), rows)
         == SumBy(CountedOf(|weights|, tenors), rows) + SumBy(OnlyIngestCounts(schema[rc]), rows)
  {
    var h := OwnOf(schema, DeltaGroup(rc, bkt), DeltaSlot(rc, bkt, None, Count));
    forall raw | raw in rows ensures h(raw) == CountedOf(|weights|, tenors)(raw) + OnlyIngestCounts(schema[rc])(raw) {
      CountContribution(raw, schema, rc, bkt, tenors, weights);
    }
    SumByAdd(h, CountedOf(|weights|, tenors), OnlyIngestCounts(schema[rc]), rows);
  }

  /** What rows of other groups add under the same key. */
  function Strays(rows: seq<RawDoc>, schema: Schema, rc: string, bkt: string, tenor: Option<string>, f: Field): real {
    SumBy(StrayOf(schema, DeltaGroup(rc, bkt), DeltaSlot(rc, bkt, tenor, f)), rows)
  }

  /**
   Whatever the rows: a per-tenor rollup weighs the numbers last given under its label, the base rollup all numbers
   given under any, while the reference weighs those at its position; the counts differ by the bare numbers less the
   arrays without labels; and each has what rows of other groups add under the same key.
   */
  lemma GirrRollupsExactly(rows: seq<RawDoc>, schema: Schema, rc: string, bkt: string, tenors: seq<string>,
      weights: seq<real>)
    requires rc != "" && bkt != "" && rc in schema && Girr(schema[rc], tenors, weights)
    ensures var docs, mine := EnrichAll(rows, schema), BucketRows(rows, rc, bkt);
            && (forall k | 0 <= k < |tenors| ::
                  Recompute(docs, DeltaSlot(rc, bkt, Some(tenors[k]), SumWs))
                  == Ws(weights[k], SumBy(KeptOf(schema[rc], tenors[k]), mine))
                     + Strays(rows, schema, rc, bkt, Some(tenors[k]), SumWs))
            && Recompute(docs, DeltaSlot(rc, bkt, None, SumWs))
            == Total(Columns(AddedColumn(schema[rc], tenors), mine, weights))
               + Strays(rows, schema, rc, bkt, None, SumWs)
            && Recompute(docs, DeltaSlot(rc, bkt, None, Count))
               == SumBy(CountedOf(|weights|, tenors), mine) + SumBy(OnlyIngestCounts(schema[rc]), mine)
                  + Strays(rows, schema, rc, bkt, None, Count)
  {
    var mine, g := BucketRows(rows, rc, bkt), DeltaGroup(rc, bkt);
    forall raw | raw in mine
      ensures InScope(raw, schema, rc, bkt, tenors, weights)
    {
      BucketRowsBelong(rows, rc, bkt, raw);
    }
    forall k | 0 <= k < |tenors|
      ensures Recompute(EnrichAll(rows, schema), DeltaSlot(rc, bkt, Some(tenors[k]), SumWs))
              == Ws(weights[k], SumBy(KeptOf(schema[rc], tenors[k]), mine))
                 + Strays(rows, schema, rc, bkt, Some(tenors[k]), SumWs)
    {
      RollupByBucketRow(rows, schema, g, DeltaSlot(rc, bkt, Some(tenors[k]), SumWs));
      TenorFold(mine, schema, rc, bkt, tenors, weights, k);
    }
    RollupByBucketRow(rows, schema, g, DeltaSlot(rc, bkt, None, SumWs));
    BaseFold(mine, schema, rc, bkt, tenors, weights);
    RollupByBucketRow(rows, schema, g, DeltaSlot(rc, bkt, None, Count));
    CountFold(mine, schema, rc, bkt, tenors, weights);
  }

  lemma ColumnsReadAlike(mine: seq<RawDoc>, cfg: ClassConfig, tenors: seq<string>, weights: seq<real>, k: nat)
    requires |weights| == |tenors| && k < |tenors|
    requires forall raw | raw in mine && raw.sensType == "Delta" :: GirrShape(raw, cfg, tenors, weights)
    ensures Ws(weights[k], SumBy(KeptOf(cfg, tenors[k]), mine)) == WsAt(mine, weights, tenors, k)
    ensures Ws(weights[k], SumBy(AddedOf(cfg, tenors[k]), mine)) == WsAt(mine, weights, tenors, k)
  {
    var a, b, c := KeptOf(cfg, tenors[k]), AddedOf(cfg, tenors[k]), SensOf(k, |weights|, tenors);
    if weights[k] != 0.0 {
      forall raw | raw in mine ensures a(raw) == c(raw) == b(raw) { ShapeReadsAlike(raw, cfg, tenors, weights, k); }
      SumByEqual(a, c, mine);
      SumByEqual(b, c, mine);
    } else {
      ProductsAgree(weights[k], SumBy(a, mine), SumBy(c, mine));
      ProductsAgree(weights[k], SumBy(b, mine), SumBy(c, mine));
    }
  }

  /** On rows read alike, without strays, each per-tenor rollup is the reference's WS_k and the base rollup its S_b. */
  lemma GirrRollupsMeetReference(rows: seq<RawDoc>, schema: Schema, rc: string, bkt: string, tenors: seq<string>,
      weights: seq<real>)
    requires rc != "" && bkt != "" && rc in schema && Girr(schema[rc], tenors, weights)
    requires forall raw | raw in rows && raw.riskClass == rc && raw.bucket == bkt && raw.sensType == "Delta" ::
               GirrShape(raw, schema[rc], tenors, weights)
    requires NoStrays(rows, DeltaGroup(rc, bkt), BaseKey(DeltaGroup(rc, bkt)))
    requires forall t | t in tenors :: NoStrays(rows, DeltaGroup(rc, bkt), TenorKey(DeltaGroup(rc, bkt), t))
    ensures var docs, ws := EnrichAll(rows, schema), TenorWs(BucketRows(rows, rc, bkt), weights, tenors);
            && (forall k | 0 <= k < |tenors| :: Recompute(docs, DeltaSlot(rc, bkt, Some(tenors[k]), SumWs)) == ws[k])
            && Recompute(docs, DeltaSlot(rc, bkt, None, SumWs)) == Total(ws)
  {
    var mine, col := BucketRows(rows, rc, bkt), AddedColumn(schema[rc], tenors);
    forall raw | raw in mine
      ensures raw in rows && raw.riskClass == rc && raw.bucket == bkt
    {
      BucketRowsBelong(rows, rc, bkt, raw);
    }
    GirrRollupsExactly(rows, schema, rc, bkt, tenors, weights);
    StraysAddNothing(rows, schema, DeltaGroup(rc, bkt), DeltaSlot(rc, bkt, None, SumWs));
    forall k | 0 <= k < |tenors|
      ensures Strays(rows, schema, rc, bkt, Some(tenors[k]), SumWs) == 0.0
      ensures Ws(weights[k], SumBy(KeptOf(schema[rc], tenors[k]), mine)) == WsAt(mine, weights, tenors, k)
              == Columns(col, mine, weights)[k]
    {
      ColumnsReadAlike(mine, schema[rc], tenors, weights, k);
      StraysAddNothing(rows, schema, DeltaGroup(rc, bkt), DeltaSlot(rc, bkt, Some(tenors[k]), SumWs));
    }
    assert Columns(col, mine, weights) == TenorWs(mine, weights, tenors);
  }
}
