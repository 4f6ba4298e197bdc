/**
 Sensitivity documents: what ingest computes for a row, the flat HASH it stores, and
 what the backfill reads back.

 Class, bucket and type may be absent, or present and empty: both count as no name, but
 only a present one is stored. HASH values are text on the wire; a number and its printed
 form are identified (`Number`).
 */
module Docs {
  import opened Json
  import opened Sums
  import opened Listing

  type TenorMap = map<string, real>

  // ------------------------------------------------------------ weights

  datatype WeightTable =
    | NoTable
    | ConstantWeight(constant: real)
    | ByTenor(byTenor: TenorMap)
    | ByBucket(byBucket: TenorMap)

  function WeightFor(table: WeightTable, bucket: string, tenor: Option<string>): real {
    match table
    case NoTable => 0.0
    case ConstantWeight(c) => c
    case ByTenor(w) => if tenor.Some? && tenor.value in w then w[tenor.value] else 0.0
    case ByBucket(w) => if bucket in w then w[bucket] else 0.0
  }

  /** Vega and Curvature values pass through unweighted. */
  function LegWeight(sensType: string, table: WeightTable, bucket: string, tenor: Option<string>): real {
    if sensType == "Vega" || sensType == "Curvature" then 1.0 else WeightFor(table, bucket, tenor)
  }

  function Weighted(sensType: string, table: WeightTable, bucket: string, tenor: Option<string>, v: real): real {
    LegWeight(sensType, table, bucket, tenor) * v
  }

  datatype ClassConfig = ClassConfig(table: WeightTable, tenorNodes: Option<seq<string>>)

  type Schema = map<string, ClassConfig>

  // ------------------------------------------------------------ documents

  /** A text attribute that is absent is used as the empty string. */
  function TextOf(attribute: Option<string>): string { if attribute.Some? then attribute.value else "" }

  datatype RawDoc = RawDoc(
    classTag: Option<string>, bucketTag: Option<string>, typeTag: Option<string>, tags: map<string, string>,
    riskValue: Json, tenor: Json)
  {
    const riskClass: string := TextOf(classTag)
    const bucket: string := TextOf(bucketTag)
    const sensType: string := TextOf(typeTag)
  }

  datatype Doc = Doc(
    classTag: Option<string>, bucketTag: Option<string>, typeTag: Option<string>, tags: map<string, string>,
    value: Option<real>, perTenor: Option<TenorMap>,
    cvrUp: Option<real>, cvrDown: Option<real>, cvrUpPerTenor: Option<TenorMap>, cvrDownPerTenor: Option<TenorMap>)
  {
    const riskClass: string := TextOf(classTag)
    const bucket: string := TextOf(bucketTag)
    const sensType: string := TextOf(typeTag)
  }

  const OTHER_TAGS := {"book", "trade_id", "risk_factor", "trader", "_calibration", "desk"}

  const OWN_TAGS := {"risk_class", "bucket", "sensitivity_type"}

  function Plain(raw: RawDoc): Doc {
    Doc(raw.classTag, raw.bucketTag, raw.typeTag,
        (map k | k in raw.tags && k in OTHER_TAGS :: raw.tags[k])["_calibration" := "demo"],
        None, None, None, None, None, None)
  }

  // ------------------------------------------------------------ weighted tenor entries

  type Entry = (string, real)

  function EntryValue(): Entry -> real { (e: Entry) => e.1 }

  /** The object a loop of `out[label] = ws` leaves behind: later writes win. */
  function Written(entries: seq<Entry>): TenorMap {
    if entries == [] then map[]
    else Written(entries[..|entries| - 1])[entries[|entries| - 1].0 := entries[|entries| - 1].1]
  }

  /** What the same loop adds up: every write counts. */
  function Added(entries: seq<Entry>): real { SumBy(EntryValue(), entries) }

  function Weigh(f: (string, Json), sensType: string, table: WeightTable, bucket: string): Option<Entry> {
    match f.1
    case JNum(v) => Some((f.0, Weighted(sensType, table, bucket, Some(f.0), v)))
    case _ => None
  }

  function WeighField(sensType: string, table: WeightTable, bucket: string): ((string, Json)) -> Option<Entry> {
    (f: (string, Json)) => Weigh(f, sensType, table, bucket)
  }

  function FieldEntries(fields: seq<(string, Json)>, sensType: string, table: WeightTable, bucket: string): seq<Entry> {
    FilterMap(WeighField(sensType, table, bucket), fields)
  }

  function Zip(labels: seq<string>, items: seq<Json>): seq<(string, Json)> {
    if labels == [] || items == [] then [] else [(labels[0], items[0])] + Zip(labels[1..], items[1..])
  }

  /** The labels an array value is zipped against: the row's own, else the class's tenor nodes. */
  function ArrayLabels(tenor: Json, nodes: Option<seq<string>>): Option<seq<string>> {
    match tenor
    case JArr(items) =>
      if forall i | 0 <= i < |items| :: items[i].JStr? then
        Some(seq(|items|, i requires 0 <= i < |items| && items[i].JStr? => items[i].s))
      else nodes
    case _ => nodes
  }

  /** Curvature arrays are typed as numbers; anything else counts as zero here. */
  function NumberOf(j: Json): real { if j.JNum? then j.n else 0.0 }

  function CvrEntries(nodes: seq<string>, items: seq<Json>, n: nat, table: WeightTable, bucket: string): seq<Entry>
    requires n <= |nodes| && n <= |items|
  {
    seq(n, i requires 0 <= i < n =>
        (nodes[i], Weighted("Curvature", table, bucket, Some(nodes[i]), NumberOf(items[i]))))
  }

  function MinLength(a: nat, b: nat, c: nat): nat {
    MinInt(MinInt(a, b), c)
  }

  // ------------------------------------------------------------ enrichment

  function WithTenors(d: Doc, entries: seq<Entry>): Doc {
    d.(perTenor := Some(Written(entries)), value := Some(Added(entries)))
  }

  function EnrichCurvature(d: Doc, fields: seq<(string, Json)>, cfg: ClassConfig): Doc {
    var up, down := Lookup(fields, "cvr_up"), Lookup(fields, "cvr_down");
    if up.JArr? && down.JArr? && cfg.tenorNodes.Some? then
      var nodes := cfg.tenorNodes.value;
      var n := MinLength(|up.items|, |down.items|, |nodes|);
      var us, ds := CvrEntries(nodes, up.items, n, cfg.table, d.bucket),
          CvrEntries(nodes, down.items, n, cfg.table, d.bucket);
      d.(cvrUpPerTenor := Some(Written(us)), cvrDownPerTenor := Some(Written(ds)), cvrUp := Some(Added(us)),
          cvrDown := Some(Added(ds)))
    else if up.JNum? && down.JNum? then
      d.(cvrUp := Some(Weighted("Curvature", cfg.table, d.bucket, None, up.n)),
         cvrDown := Some(Weighted("Curvature", cfg.table, d.bucket, None, down.n)))
    else d
  }

  function EnrichValue(d: Doc, rv: Json, tenor: Json, cfg: ClassConfig): Doc {
    match rv
    case JObj(fields) =>
      if |fields| == 1 && fields[0].0 == "spot" && fields[0].1.JNum? then
        d.(value := Some(Weighted(d.sensType, cfg.table, d.bucket, None, fields[0].1.n)))
      else WithTenors(d, FieldEntries(fields, d.sensType, cfg.table, d.bucket))
    case JArr(items) =>
      (match ArrayLabels(tenor, cfg.tenorNodes)
       case Some(labels) => WithTenors(d, FieldEntries(Zip(labels, items), d.sensType, cfg.table, d.bucket))
       case None => d)
    case JNum(v) => d.(value := Some(Weighted(d.sensType, cfg.table, d.bucket, None, v)))
    case _ => d
  }

  /** The document ingest stores for a row. */
  function Enrich(raw: RawDoc, schema: Schema): Doc {
    var d := Plain(raw);
    if raw.riskClass == "" || raw.riskClass !in schema then d
    else if raw.sensType == "Curvature" && raw.riskValue.JObj? then
      EnrichCurvature(d, raw.riskValue.fields, schema[raw.riskClass])
    else EnrichValue(d, raw.riskValue, raw.tenor, schema[raw.riskClass])
  }

  lemma EnrichKeepsGroup(raw: RawDoc, schema: Schema)
    ensures var d := Enrich(raw, schema);
            d.classTag == raw.classTag && d.bucketTag == raw.bucketTag && d.typeTag == raw.typeTag
  {
  }

  // ------------------------------------------------------------ the loops of the enrichment

  lemma WrittenSnoc(entries: seq<Entry>, e: Entry)
    ensures Written(entries + [e]) == Written(entries)[e.0 := e.1]
    ensures Added(entries + [e]) == Added(entries) + e.1
  {
    assert (entries + [e])[..|entries|] == entries;
    SumBySnoc(EntryValue(), entries, e);
  }

  lemma FieldEntriesStep(fields: seq<(string, Json)>, i: nat, sensType: string, table: WeightTable, bucket: string)
    requires i < |fields|
    ensures var before, after := FieldEntries(fields[..i], sensType, table, bucket),
            FieldEntries(fields[..i + 1], sensType, table, bucket);
            match Weigh(fields[i], sensType, table, bucket)
            case Some(e) => Written(after) == Written(before)[e.0 := e.1] && Added(after) == Added(before) + e.1
            case None => after == before
  {
    assert fields[..i + 1][..i] == fields[..i];
    match Weigh(fields[i], sensType, table, bucket) {
      case Some(e) => WrittenSnoc(FieldEntries(fields[..i], sensType, table, bucket), e);
      case None =>
    }
  }

  method WeighFields(fields: seq<(string, Json)>, sensType: string, table: WeightTable, bucket: string)
    returns (out: TenorMap, sum: real)
    ensures out == Written(FieldEntries(fields, sensType, table, bucket))
    ensures sum == Added(FieldEntries(fields, sensType, table, bucket))
  {
    out, sum := map[], 0.0;
    for i := 0 to |fields|
      invariant out == Written(FieldEntries(fields[..i], sensType, table, bucket))
      invariant sum == Added(FieldEntries(fields[..i], sensType, table, bucket))
    {
      FieldEntriesStep(fields, i, sensType, table, bucket);
      match fields[i].1 {
        case JNum(v) =>
          var ws := Weighted(sensType, table, bucket, Some(fields[i].0), v);
          out := out[fields[i].0 := ws];
          sum := sum + ws;
        case _ =>
      }
    }
    assert fields[..|fields|] == fields;
  }

  method WeighCvr(nodes: seq<string>, items: seq<Json>, n: nat, table: WeightTable, bucket: string)
    returns (out: TenorMap, sum: real)
    requires n <= |nodes| && n <= |items|
    ensures out == Written(CvrEntries(nodes, items, n, table, bucket))
    ensures sum == Added(CvrEntries(nodes, items, n, table, bucket))
  {
    out, sum := map[], 0.0;
    ghost var entries := CvrEntries(nodes, items, n, table, bucket);
    for i := 0 to n
      invariant out == Written(entries[..i]) && sum == Added(entries[..i])
    {
      var ws := Weighted("Curvature", table, bucket, Some(nodes[i]), NumberOf(items[i]));
      assert entries[..i + 1] == entries[..i] + [(nodes[i], ws)];
      WrittenSnoc(entries[..i], (nodes[i], ws));
      out := out[nodes[i] := ws];
      sum := sum + ws;
    }
    assert entries[..n] == entries;
  }

  method EnrichDoc(raw: RawDoc, schema: Schema) returns (d: Doc)
    ensures d == Enrich(raw, schema)
  {
    d := Plain(raw);
    if raw.riskClass == "" || raw.riskClass !in schema { return; }
    var cfg := schema[raw.riskClass];
    var rv := raw.riskValue;
    if raw.sensType == "Curvature" && rv.JObj? {
      var up, down := Lookup(rv.fields, "cvr_up"), Lookup(rv.fields, "cvr_down");
      if up.JArr? && down.JArr? && cfg.tenorNodes.Some? {
        var nodes := cfg.tenorNodes.value;
        var n := MinLength(|up.items|, |down.items|, |nodes|);
        var upOut, upSum := WeighCvr(nodes, up.items, n, cfg.table, d.bucket);
        var downOut, downSum := WeighCvr(nodes, down.items, n, cfg.table, d.bucket);
        d := d.(cvrUpPerTenor := Some(upOut), cvrDownPerTenor := Some(downOut), cvrUp := Some(upSum),
            cvrDown := Some(downSum));
      } else if up.JNum? && down.JNum? {
        d := d.(cvrUp := Some(Weighted("Curvature", cfg.table, d.bucket, None, up.n)),
                cvrDown := Some(Weighted("Curvature", cfg.table, d.bucket, None, down.n)));
      }
      return;
    }
    match rv {
      case JObj(fields) =>
        if |fields| == 1 && fields[0].0 == "spot" && fields[0].1.JNum? {
          d := d.(value := Some(Weighted(d.sensType, cfg.table, d.bucket, None, fields[0].1.n)));
        } else {
          var out, sum := WeighFields(fields, d.sensType, cfg.table, d.bucket);
          d := d.(perTenor := Some(out), value := Some(sum));
        }
      case JArr(items) =>
        var labels := ArrayLabels(raw.tenor, cfg.tenorNodes);
        if labels.Some? {
          var out, sum := WeighFields(Zip(labels.value, items), d.sensType, cfg.table, d.bucket);
          d := d.(perTenor := Some(out), value := Some(sum));
        }
      case JNum(v) => d := d.(value := Some(Weighted(d.sensType, cfg.table, d.bucket, None, v)));
      case _ =>
    }
  }

  // ------------------------------------------------------------ overwritten entries

  /** The sum of a tenor map's values, however its keys are enumerated. */
  ghost function TenorTotal(m: TenorMap): real { SumMap(Identity, m) }

  lemma {:induction false} AllZeroTotal(m: TenorMap)
    requires forall t | t in m :: m[t] == 0.0
    ensures TenorTotal(m) == 0.0
    decreases |m|
  {
    if m != map[] {
      var t :| t in m;
      SumMapRemove(Identity, m, t);
      AllZeroTotal(m - {t});
    }
  }

  /** Writing new tenors over old ones: the old ones that stay, plus the new ones. */
  lemma MergedTotal(before: TenorMap, after: TenorMap)
    ensures TenorTotal(before + after) == TenorTotal(before - after.Keys) + TenorTotal(after)
  {
    assert before + after == (before - after.Keys) + after;
    SumMapUnion(Identity, before - after.Keys, after);
  }

  /** The amount lost to entries whose label is written again later. */
  ghost function Overwritten(entries: seq<Entry>): real {
    if entries == [] then 0.0
    else
      var before, last := entries[..|entries| - 1], entries[|entries| - 1];
      Overwritten(before) + (if last.0 in Written(before) then Written(before)[last.0] else 0.0)
  }

  /** The scalar a per-tenor row reports exceeds the sum of its stored tenors by what was overwritten. */
  lemma {:induction false} AddedIsTotalPlusOverwritten(entries: seq<Entry>)
    ensures Added(entries) == TenorTotal(Written(entries)) + Overwritten(entries)
  {
    if entries != [] {
      var before, last := entries[..|entries| - 1], entries[|entries| - 1];
      AddedIsTotalPlusOverwritten(before);
      assert entries == before + [last];
      SumBySnoc(EntryValue(), before, last);
      SumMapUpdate(Identity, Written(before), last.0, last.1);
    }
  }

  lemma {:induction false} WrittenKeys(entries: seq<Entry>)
    ensures forall k :: k in Written(entries) <==> exists i :: 0 <= i < |entries| && entries[i].0 == k
  {
    if entries != [] {
      var before := entries[..|entries| - 1];
      WrittenKeys(before);
      assert forall i | 0 <= i < |before| :: before[i] == entries[i];
    }
  }

  ghost predicate DistinctLabels(entries: seq<Entry>) {
    forall i, j | 0 <= i < j < |entries| :: entries[i].0 != entries[j].0
  }

  lemma {:induction false} DistinctLabelsOverwriteNothing(entries: seq<Entry>)
    requires DistinctLabels(entries)
    ensures Overwritten(entries) == 0.0
    ensures forall i | 0 <= i < |entries| ::
            entries[i].0 in Written(entries) && Written(entries)[entries[i].0] == entries[i].1
  {
    if entries != [] {
      var before := entries[..|entries| - 1];
      DistinctLabelsOverwriteNothing(before);
      WrittenKeys(before);
      assert forall i | 0 <= i < |before| :: before[i] == entries[i];
    }
  }
}
