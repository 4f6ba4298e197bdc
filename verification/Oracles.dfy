/**
 The per-bucket Delta references that calc checks itself against: Equity, one factor per
 row, and GIRR, one factor per tenor. The optional exclusion filter is not modelled.
 */
module Oracles {
  import opened Json
  import opened Sums
  import opened Listing
  import opened Docs
  import opened SbmDelta

  datatype KbResult = KbResult(kB: real, sB: real, count: nat, ws: seq<real>)

  /** A weighted sensitivity. */
  function Ws(weight: real, s: real): real { weight * s }

  // ------------------------------------------------------------ Equity Delta

  /** Rows carry `{spot}` or a bare number; anything else has no value. */
  function SpotOf(rv: Json): Option<real> {
    match rv
    case JNum(v) => Some(v)
    case JObj(fields) => if Lookup(fields, "spot").JNum? then Some(Lookup(fields, "spot").n) else None
    case _ => None
  }

  function EquityWs(raw: RawDoc, weight: real): Option<real> {
    if raw.sensType != "Delta" then None
    else match SpotOf(raw.riskValue)
      case Some(v) => Some(Ws(weight, v))
      case None => None
  }

  function EquityWsOf(weight: real): RawDoc -> Option<real> { (raw: RawDoc) => EquityWs(raw, weight) }

  lemma EquityStep(rows: seq<RawDoc>, i: nat, weight: real)
    requires i < |rows|
    ensures var before, after := FilterMap(EquityWsOf(weight), rows[..i]), FilterMap(EquityWsOf(weight), rows[..i + 1]);
            match EquityWs(rows[i], weight)
            case Some(ws) =>
              after == before + [ws] && Total(after) == Total(before) + ws
              && TotalSq(after) == TotalSq(before) + Square(ws)
            case None => after == before
  {
    assert rows[..i + 1][..i] == rows[..i];
    match EquityWs(rows[i], weight) {
      case Some(ws) =>
        SumBySnoc(Identity, FilterMap(EquityWsOf(weight), rows[..i]), ws);
        SumBySnoc(Square, FilterMap(EquityWsOf(weight), rows[..i]), ws);
      case None =>
    }
  }

  /** The bucket figures of the weighted values the rows yield, in row order. */
  method ComputeKbEquityDelta(rows: seq<RawDoc>, weight: real, rho: real, root: real -> real) returns (r: KbResult)
    ensures r.ws == FilterMap(EquityWsOf(weight), rows)
    ensures r.sB == Total(r.ws) && r.count == |r.ws| && r.kB == root(KbSq(r.ws, rho))
  {
    var ws, sumWs, sumWsSq, count := [], 0.0, 0.0, 0;
    for i := 0 to |rows|
      invariant ws == FilterMap(EquityWsOf(weight), rows[..i])
      invariant sumWs == Total(ws) && sumWsSq == TotalSq(ws) && count == |ws|
    {
      EquityStep(rows, i, weight);
      if rows[i].sensType == "Delta" {
        var v := SpotOf(rows[i].riskValue);
        if v.Some? {
          var w := Ws(weight, v.value);
          ws, sumWs, sumWsSq, count := ws + [w], sumWs + w, sumWsSq + Square(w), count + 1;
        }
      }
    }
    assert rows[..|rows|] == rows;
    r := KbResult(root(KernelSq(sumWs, sumWsSq, rho)), sumWs, count, ws);
  }

  // ------------------------------------------------------------ GIRR Delta

  function NumAt(items: seq<Json>, k: nat): real { if k < |items| && items[k].JNum? then items[k].n else 0.0 }

  /** Arrays are read by position; objects by label, and only when every weight has one. */
  function SensAt(raw: RawDoc, k: nat, size: nat, tenors: seq<string>): real {
    if raw.sensType != "Delta" then 0.0
    else match raw.riskValue
      case JArr(items) => NumAt(items, k)
      case JObj(fields) => if k < size <= |tenors| then NumberOf(Lookup(fields, tenors[k])) else 0.0
      case _ => 0.0
  }

  function SensOf(k: nat, size: nat, tenors: seq<string>): RawDoc -> real {
    (raw: RawDoc) => SensAt(raw, k, size, tenors)
  }

  predicate Counted(raw: RawDoc, size: nat, tenors: seq<string>) {
    raw.sensType == "Delta" && (raw.riskValue.JArr? || (raw.riskValue.JObj? && size <= |tenors|))
  }

  function CountedOf(size: nat, tenors: seq<string>): RawDoc -> real {
    (raw: RawDoc) => if Counted(raw, size, tenors) then 1.0 else 0.0
  }

  /** The raw sensitivity at tenor k, over all rows. */
  function SumS(rows: seq<RawDoc>, k: nat, size: nat, tenors: seq<string>): real {
    SumBy(SensOf(k, size, tenors), rows)
  }

  function WsAt(rows: seq<RawDoc>, weights: seq<real>, tenors: seq<string>, k: nat): real
    requires k < |weights|
  {
    Ws(weights[k], SumS(rows, k, |weights|, tenors))
  }

  function TenorWs(rows: seq<RawDoc>, weights: seq<real>, tenors: seq<string>): seq<real> {
    seq(|weights|, k requires 0 <= k < |weights| => WsAt(rows, weights, tenors, k))
  }

  /** The Delta arrays' numbers at a position, and how many such arrays there are. */
  function AtPosition(rows: seq<RawDoc>, k: nat): real {
    if rows == [] then 0.0
    else
      var last := rows[|rows| - 1];
      AtPosition(rows[..|rows| - 1], k)
      + if last.sensType == "Delta" && last.riskValue.JArr? && k < |last.riskValue.items|
           && last.riskValue.items[k].JNum? then last.riskValue.items[k].n else 0.0
  }

  function Arrays(rows: seq<RawDoc>): nat {
    if rows == [] then 0
    else
      var last := rows[|rows| - 1];
      Arrays(rows[..|rows| - 1]) + if last.sensType == "Delta" && last.riskValue.JArr? then 1 else 0
  }

  /** The Delta objects' numbers under a label, and how many such objects there are. */
  function UnderLabel(rows: seq<RawDoc>, t: string): real {
    if rows == [] then 0.0
    else
      var last := rows[|rows| - 1];
      UnderLabel(rows[..|rows| - 1], t)
      + if last.sensType == "Delta" && last.riskValue.JObj? && Lookup(last.riskValue.fields, t).JNum?
        then Lookup(last.riskValue.fields, t).n else 0.0
  }

  function Objects(rows: seq<RawDoc>): nat {
    if rows == [] then 0
    else
      var last := rows[|rows| - 1];
      Objects(rows[..|rows| - 1]) + if last.sensType == "Delta" && last.riskValue.JObj? then 1 else 0
  }

  /** A tenor has the arrays' numbers at its position and, if no weight lacks a label, the objects' under its label. */
  lemma {:induction false} TenorSums(rows: seq<RawDoc>, k: nat, size: nat, tenors: seq<string>)
    requires k < size
    ensures SumS(rows, k, size, tenors)
            == AtPosition(rows, k) + if |tenors| < size then 0.0 else UnderLabel(rows, tenors[k])
    decreases |rows|
  {
    if rows != [] {
      var before, last := rows[..|rows| - 1], rows[|rows| - 1];
      TenorSums(before, k, size, tenors);
      assert rows == before + [last];
      SumBySnoc(SensOf(k, size, tenors), before, last);
    }
  }

  /** Counted are the arrays and, if no weight lacks a label, the objects. */
  lemma {:induction false} RowsCounted(rows: seq<RawDoc>, size: nat, tenors: seq<string>)
    ensures SumBy(CountedOf(size, tenors), rows)
            == (Arrays(rows) + if |tenors| < size then 0 else Objects(rows)) as real
    decreases |rows|
  {
    if rows != [] {
      var before, last := rows[..|rows| - 1], rows[|rows| - 1];
      RowsCounted(before, size, tenors);
      assert rows == before + [last];
      SumBySnoc(CountedOf(size, tenors), before, last);
    }
  }

  method AddRow(sumS: array<real>, raw: RawDoc, tenors: seq<string>) returns (counted: bool)
    modifies sumS
    ensures forall k | 0 <= k < sumS.Length :: sumS[k] == old(sumS[k]) + SensAt(raw, k, sumS.Length, tenors)
    ensures counted == Counted(raw, sumS.Length, tenors)
  {
    counted := false;
    if raw.sensType != "Delta" { return; }
    match raw.riskValue {
      case JArr(items) =>
        var k := 0;
        while k < sumS.Length && k < |items|
          invariant k <= sumS.Length && k <= |items|
          invariant forall j | 0 <= j < sumS.Length :: sumS[j] == old(sumS[j]) + if j < k then NumAt(items, j) else 0.0
        {
          if items[k].JNum? { sumS[k] := sumS[k] + items[k].n; }
          k := k + 1;
        }
        counted := true;
      case JObj(fields) =>
        if sumS.Length <= |tenors| {
          for k := 0 to sumS.Length
            invariant forall j | 0 <= j < sumS.Length ::
                      sumS[j] == old(sumS[j]) + if j < k then NumberOf(Lookup(fields, tenors[j])) else 0.0
          {
            var s := Lookup(fields, tenors[k]);
            if s.JNum? { sumS[k] := sumS[k] + s.n; }
          }
          counted := true;
        }
      case _ =>
    }
  }

  /** An absent label list is the empty one. */
  method ComputeKbDelta(rows: seq<RawDoc>, weights: seq<real>, rho: real, tenors: seq<string>, root: real -> real)
    returns (r: KbResult)
    ensures r.ws == TenorWs(rows, weights, tenors)
    ensures r.sB == Total(r.ws) && r.kB == root(KbSq(r.ws, rho))
    ensures r.count as real == SumBy(CountedOf(|weights|, tenors), rows)
  {
    var size := |weights|;
    var sumS := new real[size](_ => 0.0);
    var count := 0;
    for i := 0 to |rows|
      invariant forall k | 0 <= k < size :: sumS[k] == SumS(rows[..i], k, size, tenors)
      invariant count as real == SumBy(CountedOf(size, tenors), rows[..i])
    {
      assert rows[..i + 1] == rows[..i] + [rows[i]];
      forall k | 0 <= k < size
        ensures SumS(rows[..i + 1], k, size, tenors)
                == SumS(rows[..i], k, size, tenors) + SensAt(rows[i], k, size, tenors)
      {
        SumBySnoc(SensOf(k, size, tenors), rows[..i], rows[i]);
      }
      SumBySnoc(CountedOf(size, tenors), rows[..i], rows[i]);
      var counted := AddRow(sumS, rows[i], tenors);
      if counted { count := count + 1; }
    }
    assert rows[..|rows|] == rows;
    r := WeighTenors(rows, weights, rho, tenors, root, sumS[..], count);
  }

  method WeighTenors(ghost rows: seq<RawDoc>, weights: seq<real>, rho: real, ghost tenors: seq<string>,
      root: real -> real, sumS: seq<real>, count: nat) returns (r: KbResult)
    requires |sumS| == |weights| && forall k | 0 <= k < |weights| :: sumS[k] == SumS(rows, k, |weights|, tenors)
    ensures r.ws == TenorWs(rows, weights, tenors)
    ensures r.sB == Total(r.ws) && r.kB == root(KbSq(r.ws, rho)) && r.count == count
  {
    var ws, sumWs, sumWsSq := [], 0.0, 0.0;
    for k := 0 to |weights|
      invariant ws == TenorWs(rows, weights, tenors)[..k]
      invariant sumWs == Total(ws) && sumWsSq == TotalSq(ws)
    {
      var w := Ws(weights[k], sumS[k]);
      assert TenorWs(rows, weights, tenors)[k] == w;
      SumBySnoc(Identity, ws, w);
      SumBySnoc(Square, ws, w);
      ws, sumWs, sumWsSq := ws + [w], sumWs + w, sumWsSq + Square(w);
    }
    r := KbResult(root(KernelSq(sumWs, sumWsSq, rho)), sumWs, count, ws);
  }
}
