/** Raw rows to rollup fields to bucket figures, against the references on the raw rows. */
module EndToEnd {
  import opened Json
  import opened Sums
  import opened Listing
  import opened Docs
  import opened Keys
  import opened Rollup
  import opened SbmDelta
  import opened Oracles

  function EnrichAll(rows: seq<RawDoc>, schema: Schema): (docs: seq<Doc>)
    ensures |docs| == |rows| && forall i | 0 <= i < |rows| :: docs[i] == Enrich(rows[i], schema)
  {
    seq(|rows|, i requires 0 <= i < |rows| => Enrich(rows[i], schema))
  }

  function KeepBucket(rc: string, bkt: string): RawDoc -> Option<RawDoc> {
    (raw: RawDoc) => if raw.riskClass == rc && raw.bucket == bkt then Some(raw) else None
  }

  /** The rows a reference is given for one bucket. */
  function BucketRows(rows: seq<RawDoc>, rc: string, bkt: string): seq<RawDoc> { FilterMap(KeepBucket(rc, bkt), rows) }

  function DeltaGroup(rc: string, bkt: string): Group { Group(rc, bkt, "Delta") }

  function DeltaSlot(rc: string, bkt: string, tenor: Option<string>, f: Field): Slot {
    Slot(RollupKey(DeltaGroup(rc, bkt), tenor), f)
  }

  function EnrichedContribution(schema: Schema, s: Slot): RawDoc -> real {
    (raw: RawDoc) => Contribution(Enrich(raw, schema), s)
  }

  lemma {:induction false} RecomputeByRow(rows: seq<RawDoc>, schema: Schema, s: Slot)
    ensures Recompute(EnrichAll(rows, schema), s) == SumBy(EnrichedContribution(schema, s), rows)
  {
    if rows != [] {
      RecomputeByRow(rows[1..], schema, s);
      assert EnrichAll(rows, schema)[1..] == EnrichAll(rows[1..], schema);
    }
  }

  function RawGroup(raw: RawDoc): Group { Group(raw.riskClass, raw.bucket, raw.sensType) }

  /** What the rows of the group itself add; rows of other groups add something if a key of theirs is the same text. */
  function OwnOf(schema: Schema, g: Group, s: Slot): RawDoc -> real {
    (raw: RawDoc) => if RawGroup(raw) == g then Contribution(Enrich(raw, schema), s) else 0.0
  }

  function StrayOf(schema: Schema, g: Group, s: Slot): RawDoc -> real {
    (raw: RawDoc) => if RawGroup(raw) == g then 0.0 else Contribution(Enrich(raw, schema), s)
  }

  /** Strays apart, rows of other buckets leave a bucket's rollups alone. */
  lemma {:induction false} OnlyBucketRowsCount(rows: seq<RawDoc>, schema: Schema, g: Group, s: Slot)
    ensures SumBy(OwnOf(schema, g, s), rows) == SumBy(OwnOf(schema, g, s), BucketRows(rows, g.riskClass, g.bucket))
  {
    if rows != [] {
      var before, last := rows[..|rows| - 1], rows[|rows| - 1];
      OnlyBucketRowsCount(before, schema, g, s);
      assert rows == before + [last];
      SumBySnoc(OwnOf(schema, g, s), before, last);
      FilterMapSnoc(KeepBucket(g.riskClass, g.bucket), before, last);
      if last.riskClass == g.riskClass && last.bucket == g.bucket {
        SumBySnoc(OwnOf(schema, g, s), BucketRows(before, g.riskClass, g.bucket), last);
      }
    }
  }

  lemma RollupByBucketRow(rows: seq<RawDoc>, schema: Schema, g: Group, s: Slot)
    ensures Recompute(EnrichAll(rows, schema), s)
         == SumBy(OwnOf(schema, g, s), BucketRows(rows, g.riskClass, g.bucket)) + SumBy(StrayOf(schema, g, s), rows)
  {
    RecomputeByRow(rows, schema, s);
    SumByAdd(EnrichedContribution(schema, s), OwnOf(schema, g, s), StrayOf(schema, g, s), rows);
    OnlyBucketRowsCount(rows, schema, g, s);
  }

  /** The row's class, bucket and type, all named, have the key among theirs. */
  predicate Owns(raw: RawDoc, key: string) {
    raw.riskClass != "" && raw.bucket != "" && raw.sensType != "" && PlaceIn(RawGroup(raw), key) != Outside
  }

  /** No row of another group has the key too. */
  predicate NoStrays(rows: seq<RawDoc>, g: Group, key: string) {
    forall raw | raw in rows && Owns(raw, key) :: RawGroup(raw) == g
  }

  lemma StraysAddNothing(rows: seq<RawDoc>, schema: Schema, g: Group, s: Slot)
    requires NoStrays(rows, g, s.key)
    ensures SumBy(StrayOf(schema, g, s), rows) == 0.0
  {
    forall raw | raw in rows ensures StrayOf(schema, g, s)(raw) == 0.0 { EnrichKeepsGroup(raw, schema); }
    SumByZero(StrayOf(schema, g, s), rows);
  }

  /** Names without a colon have no strays. */
  lemma ColonFreeRowsDoNotStray(rows: seq<RawDoc>, g: Group, tenor: Option<string>)
    requires ColonFree(g) && forall raw | raw in rows :: ColonFree(RawGroup(raw))
    ensures NoStrays(rows, g, RollupKey(g, tenor))
  {
    var key := RollupKey(g, tenor);
    forall raw | raw in rows && Owns(raw, key) ensures RawGroup(raw) == g {
      var place := PlaceIn(RawGroup(raw), key);
      ColonFreeKeys(RawGroup(raw), if place.At? then Some(place.tenor) else None, g, tenor);
    }
  }

  lemma BucketRowsBelong(rows: seq<RawDoc>, rc: string, bkt: string, u: RawDoc)
    requires u in BucketRows(rows, rc, bkt)
    ensures u in rows && u.riskClass == rc && u.bucket == bkt
  {
    FilterMapMembers(KeepBucket(rc, bkt), rows, u);
  }

  // ------------------------------------------------------------ labelled numbers

  predicate LoneSpot(rv: Json) { rv.JObj? && |rv.fields| == 1 && rv.fields[0].0 == "spot" && rv.fields[0].1.JNum? }

  function WeightedNumber(table: WeightTable, bucket: string): ((string, Json)) -> real {
    (f: (string, Json)) => Ws(WeightFor(table, bucket, Some(f.0)), NumberOf(f.1))
  }

  function PlainNumber(): ((string, Json)) -> real { (f: (string, Json)) => NumberOf(f.1) }

  /** All numbers, each with the weight of its label. */
  function WeightedTotal(fields: seq<(string, Json)>, table: WeightTable, bucket: string): real {
    SumBy(WeightedNumber(table, bucket), fields)
  }

  /** All numbers. */
  function NumberTotal(fields: seq<(string, Json)>): real { SumBy(PlainNumber(), fields) }

  /** What the weighing loop adds up. */
  lemma {:induction false} AddedIsWeightedTotal(fields: seq<(string, Json)>, table: WeightTable, bucket: string)
    ensures Added(FieldEntries(fields, "Delta", table, bucket)) == WeightedTotal(fields, table, bucket)
  {
    if fields != [] {
      var before, last := fields[..|fields| - 1], fields[|fields| - 1];
      AddedIsWeightedTotal(before, table, bucket);
      assert fields == before + [last];
      SumBySnoc(WeightedNumber(table, bucket), before, last);
      FilterMapSnoc(WeighField("Delta", table, bucket), before, last);
      if last.1.JNum? {
        SumBySnoc(EntryValue(), FieldEntries(before, "Delta", table, bucket),
            (last.0, Weighted("Delta", table, bucket, Some(last.0), last.1.n)));
      }
    }
  }

  /** Without per-tenor weights one weight fits all labels. */
  lemma OneWeightForAll(fields: seq<(string, Json)>, table: WeightTable, bucket: string)
    requires !table.ByTenor?
    ensures WeightedTotal(fields, table, bucket) == Ws(WeightFor(table, bucket, None), NumberTotal(fields))
  {
    SumByScale(WeightedNumber(table, bucket), WeightFor(table, bucket, None), PlainNumber(), fields);
  }

  // ------------------------------------------------------------ Equity Delta

  function ScalarWeight(schema: Schema, rc: string, bkt: string): real
    requires rc in schema
  {
    WeightFor(schema[rc].table, bkt, None)
  }

  /** The figure ingest reads from a Delta row. */
  function RawFigure(raw: RawDoc, schema: Schema): Option<real>
    requires raw.riskClass in schema
  {
    var cfg, weight := schema[raw.riskClass], ScalarWeight(schema, raw.riskClass, raw.bucket);
    match raw.riskValue
    case JNum(v) => Some(Ws(weight, v))
    case JObj(fields) =>
      if LoneSpot(raw.riskValue) then Some(Ws(weight, fields[0].1.n))
      else Some(WeightedTotal(fields, cfg.table, raw.bucket))
    case JArr(items) =>
      (match ArrayLabels(raw.tenor, cfg.tenorNodes)
       case Some(labels) => Some(WeightedTotal(Zip(labels, items), cfg.table, raw.bucket))
       case None => None)
    case _ => None
  }

  lemma EnrichedFigure(raw: RawDoc, schema: Schema)
    requires raw.riskClass != "" && raw.riskClass in schema && raw.sensType == "Delta"
    ensures Enrich(raw, schema).value == RawFigure(raw, schema)
  {
    var cfg := schema[raw.riskClass];
    match raw.riskValue {
      case JNum(v) => WeighedAsReference(cfg.table, raw.bucket, v);
      case JObj(fields) =>
        if LoneSpot(raw.riskValue) { WeighedAsReference(cfg.table, raw.bucket, fields[0].1.n); }
        else { AddedIsWeightedTotal(fields, cfg.table, raw.bucket); }
      case JArr(items) =>
        var labels := ArrayLabels(raw.tenor, cfg.tenorNodes);
        if labels.Some? { AddedIsWeightedTotal(Zip(labels.value, items), cfg.table, raw.bucket); }
      case _ =>
    }
  }

  lemma WeighedAsReference(table: WeightTable, bucket: string, v: real)
    ensures Weighted("Delta", table, bucket, None, v) == Ws(WeightFor(table, bucket, None), v)
  {
  }

  /**
   The raw rows both sides read alike: arrays only without labels, objects only with a spot, and then a lone one,
   or one the object's numbers add up to, unless the weight is zero; with per-tenor weights, weighted numbers that
   cancel.
   */
  predicate EquityShape(raw: RawDoc, schema: Schema)
    requires raw.riskClass in schema
  {
    var cfg := schema[raw.riskClass];
    match raw.riskValue
    case JObj(fields) =>
      Lookup(fields, "spot").JNum?
      && (|| LoneSpot(raw.riskValue)
          || (cfg.table.ByTenor? && WeightedTotal(fields, cfg.table, raw.bucket) == 0.0)
          || (!cfg.table.ByTenor? && ScalarWeight(schema, raw.riskClass, raw.bucket) == 0.0)
          || (!cfg.table.ByTenor? && NumberTotal(fields) == Lookup(fields, "spot").n))
    case JArr(_) => ArrayLabels(raw.tenor, cfg.tenorNodes).None?
    case _ => true
  }

  lemma ProductsAgree(w: real, a: real, b: real)
    ensures Ws(w, a) == Ws(w, b) <==> w == 0.0 || a == b
  {
    assert Ws(w, a) - Ws(w, b) == w * (a - b);
  }

  lemma EquityRowExactly(raw: RawDoc, schema: Schema)
    requires raw.riskClass != "" && raw.riskClass in schema && raw.sensType == "Delta"
    ensures Enrich(raw, schema).value == EquityWs(raw, ScalarWeight(schema, raw.riskClass, raw.bucket))
            <==> EquityShape(raw, schema)
  {
    var cfg, weight := schema[raw.riskClass], ScalarWeight(schema, raw.riskClass, raw.bucket);
    EnrichedFigure(raw, schema);
    if raw.riskValue.JObj? && Lookup(raw.riskValue.fields, "spot").JNum? && !LoneSpot(raw.riskValue) {
      var fields := raw.riskValue.fields;
      if !cfg.table.ByTenor? {
        OneWeightForAll(fields, cfg.table, raw.bucket);
        ProductsAgree(weight, NumberTotal(fields), Lookup(fields, "spot").n);
      }
    }
  }

  /** In particular an object without a spot is invisible to the reference, yet ingest counts it. */
  lemma ObjectsWithoutSpotDisagree(raw: RawDoc, schema: Schema, weight: real)
    requires raw.riskClass != "" && raw.bucket != "" && raw.riskClass in schema && raw.sensType == "Delta"
    requires raw.riskValue.JObj? && !Lookup(raw.riskValue.fields, "spot").JNum?
    ensures EquityWs(raw, weight).None?
    ensures Contribution(Enrich(raw, schema), DeltaSlot(raw.riskClass, raw.bucket, None, Count)) == 1.0
  {
  }

  function OptionField(v: Option<real>, f: Field): real { if v.Some? then ScalarField(v.value, f) else 0.0 }

  /** What ingest reads from a row beyond what the reference does. */
  function Excess(raw: RawDoc, schema: Schema, f: Field): real
    requires raw.riskClass in schema
  {
    var weight := ScalarWeight(schema, raw.riskClass, raw.bucket);
    if raw.sensType != "Delta" then 0.0
    else OptionField(RawFigure(raw, schema), f) - OptionField(EquityWs(raw, weight), f)
  }

  /** Rows of other classes have none. */
  function ExcessOf(schema: Schema, f: Field): RawDoc -> real {
    (raw: RawDoc) => if raw.riskClass in schema then Excess(raw, schema, f) else 0.0
  }

  lemma NoExcessExactly(raw: RawDoc, schema: Schema)
    requires raw.riskClass != "" && raw.riskClass in schema && raw.sensType == "Delta"
    ensures (forall f :: Excess(raw, schema, f) == 0.0) <==> EquityShape(raw, schema)
  {
    EquityRowExactly(raw, schema);
    EnrichedFigure(raw, schema);
    assert Excess(raw, schema, Count) == 0.0 && Excess(raw, schema, SumWs) == 0.0
           ==> RawFigure(raw, schema) == EquityWs(raw, ScalarWeight(schema, raw.riskClass, raw.bucket));
  }

  lemma EquityContribution(raw: RawDoc, schema: Schema, f: Field)
    requires raw.riskClass != "" && raw.bucket != "" && raw.riskClass in schema
    ensures OwnOf(schema, DeltaGroup(raw.riskClass, raw.bucket), DeltaSlot(raw.riskClass, raw.bucket, None, f))(raw)
         == OptionField(EquityWs(raw, ScalarWeight(schema, raw.riskClass, raw.bucket)), f) + Excess(raw, schema, f)
  {
    EnrichKeepsGroup(raw, schema);
    if raw.sensType == "Delta" { EnrichedFigure(raw, schema); }
  }

  function FieldTotal(ws: seq<real>, f: Field): real {
    match f
    case SumWs => Total(ws)
    case SumWsSq => TotalSq(ws)
    case Count => |ws| as real
    case _ => 0.0
  }

  lemma FieldTotalSnoc(ws: seq<real>, w: real, f: Field)
    ensures FieldTotal(ws + [w], f) == FieldTotal(ws, f) + ScalarField(w, f)
  {
    SumBySnoc(Identity, ws, w);
    SumBySnoc(Square, ws, w);
  }

  ghost predicate OfBucket(rows: seq<RawDoc>, rc: string, bkt: string) {
    forall i | 0 <= i < |rows| :: rows[i].riskClass == rc && rows[i].bucket == bkt
  }

  lemma {:induction false} EquityFold(rows: seq<RawDoc>, schema: Schema, rc: string, bkt: string, f: Field)
    requires rc != "" && bkt != "" && rc in schema && OfBucket(rows, rc, bkt)
    ensures SumBy(OwnOf(schema, DeltaGroup(rc, bkt), DeltaSlot(rc, bkt, None, f)), rows)
         == FieldTotal(FilterMap(EquityWsOf(ScalarWeight(schema, rc, bkt)), rows), f) + SumBy(ExcessOf(schema, f), rows)
  {
    if rows != [] {
      var before, last := rows[..|rows| - 1], rows[|rows| - 1];
      EquityFold(before, schema, rc, bkt, f);
      assert rows == before + [last];
      SumBySnoc(ExcessOf(schema, f), before, last);
      EquityFoldStep(before, last, schema, f);
    }
  }

  lemma EquityFoldStep(before: seq<RawDoc>, last: RawDoc, schema: Schema, f: Field)
    requires last.riskClass != "" && last.bucket != "" && last.riskClass in schema
    ensures var w := EquityWsOf(ScalarWeight(schema, last.riskClass, last.bucket));
            var own := OwnOf(schema, DeltaGroup(last.riskClass, last.bucket),
                             DeltaSlot(last.riskClass, last.bucket, None, f));
            SumBy(own, before + [last]) - SumBy(own, before)
            == FieldTotal(FilterMap(w, before + [last]), f) - FieldTotal(FilterMap(w, before), f)
            + Excess(last, schema, f)
  {
    var weight := ScalarWeight(schema, last.riskClass, last.bucket);
    SumBySnoc(OwnOf(schema, DeltaGroup(last.riskClass, last.bucket),
        DeltaSlot(last.riskClass, last.bucket, None, f)), before, last);
    EquityContribution(last, schema, f);
    FilterMapSnoc(EquityWsOf(weight), before, last);
    var ws := EquityWs(last, weight);
    if ws.Some? { FieldTotalSnoc(FilterMap(EquityWsOf(weight), before), ws.value, f); }
  }

  /**
   Whatever the rows: every rollup field of an Equity bucket is the reference's figure plus the rows' excesses and what
   rows of other groups add under the same key.
   */
  lemma EquityRollupsExactly(rows: seq<RawDoc>, schema: Schema, rc: string, bkt: string, f: Field)
    requires rc != "" && bkt != "" && rc in schema
    ensures Recompute(EnrichAll(rows, schema), DeltaSlot(rc, bkt, None, f))
         == FieldTotal(FilterMap(EquityWsOf(ScalarWeight(schema, rc, bkt)), BucketRows(rows, rc, bkt)), f)
            + SumBy(ExcessOf(schema, f), BucketRows(rows, rc, bkt))
            + SumBy(StrayOf(schema, DeltaGroup(rc, bkt), DeltaSlot(rc, bkt, None, f)), rows)
  {
    var mine := BucketRows(rows, rc, bkt);
    forall i | 0 <= i < |mine| ensures mine[i].riskClass == rc && mine[i].bucket == bkt {
      BucketRowsBelong(rows, rc, bkt, mine[i]);
    }
    RollupByBucketRow(rows, schema, DeltaGroup(rc, bkt), DeltaSlot(rc, bkt, None, f));
    EquityFold(mine, schema, rc, bkt, f);
  }

  lemma NoExcessAtAll(rows: seq<RawDoc>, schema: Schema, f: Field)
    requires forall raw | raw in rows && raw.riskClass in schema && raw.sensType == "Delta" ::
             raw.riskClass != "" && EquityShape(raw, schema)
    ensures SumBy(ExcessOf(schema, f), rows) == 0.0
  {
    forall raw | raw in rows ensures ExcessOf(schema, f)(raw) == 0.0 {
      if raw.riskClass in schema && raw.sensType == "Delta" { NoExcessExactly(raw, schema); }
    }
    SumByZero(ExcessOf(schema, f), rows);
  }

  /** Without excesses and strays the rollup fields of an Equity bucket give the reference's S_b, K_b squared, count. */
  lemma EquityRollupsMeetReference(rows: seq<RawDoc>, schema: Schema, rc: string, bkt: string, rho: real)
    requires rc != "" && bkt != "" && rc in schema
    requires forall raw | raw in rows && raw.riskClass == rc && raw.bucket == bkt && raw.sensType == "Delta" ::
             EquityShape(raw, schema)
    requires NoStrays(rows, DeltaGroup(rc, bkt), BaseKey(DeltaGroup(rc, bkt)))
    ensures var docs, ws := EnrichAll(rows, schema),
            FilterMap(EquityWsOf(ScalarWeight(schema, rc, bkt)), BucketRows(rows, rc, bkt));
            var sumWs, sumWsSq := Recompute(docs, DeltaSlot(rc, bkt, None, SumWs)),
                Recompute(docs, DeltaSlot(rc, bkt, None, SumWsSq));
            && sumWs == Total(ws) && KernelSq(sumWs, sumWsSq, rho) == KbSq(ws, rho)
            && Recompute(docs, DeltaSlot(rc, bkt, None, Count)) == |ws| as real
  {
    var mine := BucketRows(rows, rc, bkt);
    forall raw | raw in mine
      ensures raw in rows && raw.riskClass == rc && raw.bucket == bkt
    {
      BucketRowsBelong(rows, rc, bkt, raw);
    }
    forall f ensures Recompute(EnrichAll(rows, schema), DeltaSlot(rc, bkt, None, f))
                  == FieldTotal(FilterMap(EquityWsOf(ScalarWeight(schema, rc, bkt)), mine), f)
    {
      EquityRollupsExactly(rows, schema, rc, bkt, f);
      NoExcessAtAll(mine, schema, f);
      StraysAddNothing(rows, schema, DeltaGroup(rc, bkt), DeltaSlot(rc, bkt, None, f));
    }
  }
}
