/**
 The Equity curvature charge read off the rows: which numbers reach which bucket, with which correlation,
 and what the charge squares to.
 */
module CurvatureCharge {
  import opened Json
  import opened Sums
  import opened Listing
  import opened Curvature

  // ------------------------------------------------------------ the numbers of a bucket

  /** The row counts in the bucket. */
  predicate CountsIn(row: Row, exclude: Exclude, b: string) {
    && row.sensitivityType == "Curvature" && row.bucket == b && b != ""
    && (row.book.Some? ==> row.book.value !in exclude.book)
    && (row.tradeId.Some? ==> row.tradeId.value !in exclude.tradeId)
    && (row.riskFactor.Some? ==> row.riskFactor.value !in exclude.riskFactor)
    && row.riskValue.JObj?
    && Lookup(row.riskValue.fields, "cvr_up").JNum? && Lookup(row.riskValue.fields, "cvr_down").JNum?
  }

  /** The numbers its rows carry under a name, in row order. */
  function Cvrs(rows: seq<Row>, exclude: Exclude, b: string, name: string): seq<real>
    requires name == "cvr_up" || name == "cvr_down"
  {
    if rows == [] then []
    else
      var last := rows[|rows| - 1];
      Cvrs(rows[..|rows| - 1], exclude, b, name)
      + if CountsIn(last, exclude, b) then [Lookup(last.riskValue.fields, name).n] else []
  }

  lemma {:induction false} AccumIs(rows: seq<Row>, exclude: Exclude, b: string)
    ensures var a := AccumOf(Pairs(rows, exclude, b));
            && a.cvrUp == Cvrs(rows, exclude, b, "cvr_up") && a.cvrDown == Cvrs(rows, exclude, b, "cvr_down")
            && a.count == |Cvrs(rows, exclude, b, "cvr_up")|
  {
    if rows != [] {
      var i := |rows| - 1;
      AccumIs(rows[..i], exclude, b);
      AccumStep(rows, i, exclude, b);
      assert rows[..i + 1] == rows;
    }
  }

  /** A bucket's figures: the worse direction of the two, upward on a tie, at the squared correlation. */
  ghost predicate BucketFigures(p: BucketCurvature, ups: seq<real>, downs: seq<real>, rho: real) {
    var up, down := KbSquared(ups, rho * rho), KbSquared(downs, rho * rho);
    && p.kB >= 0.0 && p.kB * p.kB == Max(0.0, Max(up, down)) && p.count == |ups|
    && p.sB == SbmDelta.Total(if down > Max(0.0, up) then downs else ups)
    && (p.direction == Down <==> down > Max(0.0, up)) && (p.direction == Up <==> up > Max(0.0, down))
    && p.direction != Mixed
    && p.kUp >= 0.0 && p.kUp * p.kUp == Max(0.0, up) && p.kDown >= 0.0 && p.kDown * p.kDown == Max(0.0, down)
    && p.sUp == SbmDelta.Total(ups) && p.sDown == SbmDelta.Total(downs)
  }

  lemma RootOrder(root: real -> real, a: real, b: real)
    requires SbmDelta.IsRoot(root) && a >= 0.0 && b >= 0.0
    ensures root(a) > root(b) <==> a > b
  {
    RootsCompare(root(a), root(b));
  }

  lemma ResolvedFigures(b: string, ups: seq<real>, downs: seq<real>, rho: real, root: real -> real)
    requires SbmDelta.IsRoot(root) && |ups| == |downs|
    ensures BucketFigures(ResolveAccum(b, Accum(ups, downs, |ups|), rho, root), ups, downs, rho)
  {
    ResolveBucketIsWorst(b, ups, downs, rho * rho, |ups|, root);
    RootOrder(root, Max(0.0, KbSquared(ups, rho * rho)), Max(0.0, KbSquared(downs, rho * rho)));
    RootOrder(root, Max(0.0, KbSquared(downs, rho * rho)), Max(0.0, KbSquared(ups, rho * rho)));
  }

  lemma {:induction false} LegsTogether(rows: seq<Row>, exclude: Exclude, b: string)
    ensures |Cvrs(rows, exclude, b, "cvr_up")| == |Cvrs(rows, exclude, b, "cvr_down")|
  {
    if rows != [] {
      LegsTogether(rows[..|rows| - 1], exclude, b);
    }
  }

  // ------------------------------------------------------------ which buckets there are

  lemma {:induction false} NamedIffCounted(rows: seq<Row>, exclude: Exclude, b: string)
    ensures b in BucketNames(rows, exclude) <==> exists row :: row in rows && CountsIn(row, exclude, b)
  {
    if rows != [] {
      var i := |rows| - 1;
      NamedIffCounted(rows[..i], exclude, b);
      GroupStep(rows, i, exclude, b);
      assert rows[..i + 1] == rows && rows == rows[..i] + [rows[i]];
      var c := BucketPair(exclude)(rows[i]);
      assert (c.Some? && c.value.0 == b) <==> CountsIn(rows[i], exclude, b);
      if b in BucketNames(rows[..i], exclude) {
        var row :| row in rows[..i] && CountsIn(row, exclude, b);
        assert row in rows;
      } else if CountsIn(rows[i], exclude, b) {
        assert rows[i] in rows;
      }
    }
  }

  lemma {:induction false} KeptNames(names: seq<string>, order: seq<string>, b: string)
    ensures b in FilterMap(Keep(names), order) <==> b in order && b in names
  {
    if order != [] {
      var before, last := order[..|order| - 1], order[|order| - 1];
      KeptNames(names, before, b);
      assert order == before + [last];
    }
  }

  /** Some row counts in the bucket and, with a given order, it is listed there. */
  ghost predicate IsCharged(rows: seq<Row>, schema: Schema, b: string) {
    && (exists row :: row in rows && CountsIn(row, schema.exclude, b))
    && (schema.bucketOrder.Some? ==> b in schema.bucketOrder.value)
  }

  lemma ChargedBuckets(rows: seq<Row>, schema: Schema, b: string)
    ensures b in OrderedNames(BucketNames(rows, schema.exclude), schema.bucketOrder)
            <==> IsCharged(rows, schema, b)
    ensures schema.bucketOrder.None? ==> Ascending(OrderedNames(BucketNames(rows, schema.exclude), None))
  {
    var names := BucketNames(rows, schema.exclude);
    NamedIffCounted(rows, schema.exclude, b);
    match schema.bucketOrder {
      case None =>
        DistinctElements(FilterMap(BucketName(), FilterMap(BucketPair(schema.exclude), rows)));
        SortAscending(names);
      case Some(bs) => KeptNames(names, bs, b);
    }
  }

  /** The charged names of an order, where they stand in it. */
  ghost function Listed(rows: seq<Row>, schema: Schema, order: seq<string>): seq<string> {
    if order == [] then []
    else
      var last := order[|order| - 1];
      Listed(rows, schema, order[..|order| - 1])
      + if exists row :: row in rows && CountsIn(row, schema.exclude, last) then [last] else []
  }

  lemma {:induction false} ListedNames(rows: seq<Row>, schema: Schema, order: seq<string>)
    ensures FilterMap(Keep(BucketNames(rows, schema.exclude)), order) == Listed(rows, schema, order)
  {
    if order != [] {
      ListedNames(rows, schema, order[..|order| - 1]);
      NamedIffCounted(rows, schema.exclude, order[|order| - 1]);
    }
  }

  // ------------------------------------------------------------ across buckets

  /** The correlation used between two buckets is the square of the given one, constant or entry. */
  lemma GammaSquared(corr: GammaSpec, b: string, c: string)
    ensures GammaOf(SquareSpec(corr), b, c) == GammaOf(corr, b, c) * GammaOf(corr, b, c)
  {
  }

  lemma {:induction false} LabelFound(labels: seq<string>, i: nat)
    requires i < |labels| && forall j | i < j < |labels| :: labels[j] != labels[i]
    ensures LabelIndex(labels, labels[i]) == Some(i)
  {
    if i < |labels| - 1 {
      assert labels[..|labels| - 1][i] == labels[i];
      LabelFound(labels[..|labels| - 1], i);
    }
  }

  /** The entry of a matrix is the one where the two labels last stand. */
  lemma EntryOf(labels: seq<string>, matrix: seq<seq<real>>, i: nat, j: nat)
    requires i < |labels| && j < |labels| && i < |matrix| && j < |matrix[i]|
    requires forall k | i < k < |labels| :: labels[k] != labels[i]
    requires forall k | j < k < |labels| :: labels[k] != labels[j]
    ensures GammaOf(Matrix(labels, matrix), labels[i], labels[j]) == matrix[i][j]
  {
    LabelFound(labels, i);
    LabelFound(labels, j);
  }

  lemma {:induction false} LabelMissing(labels: seq<string>, name: string)
    requires name !in labels
    ensures LabelIndex(labels, name) == None
  {
    if labels != [] {
      assert labels[|labels| - 1] in labels;
      LabelMissing(labels[..|labels| - 1], name);
    }
  }

  lemma UnlabelledBuckets(labels: seq<string>, matrix: seq<seq<real>>, b: string, c: string)
    requires b !in labels || c !in labels
    ensures GammaOf(Matrix(labels, matrix), b, c) == 0.0
  {
    if b !in labels { LabelMissing(labels, b); } else { LabelMissing(labels, c); }
  }

  lemma EntryMissing(labels: seq<string>, matrix: seq<seq<real>>, i: nat, j: nat)
    requires i < |labels| && j < |labels| && (i >= |matrix| || j >= |matrix[i]|)
    requires forall k | i < k < |labels| :: labels[k] != labels[i]
    requires forall k | j < k < |labels| :: labels[k] != labels[j]
    ensures GammaOf(Matrix(labels, matrix), labels[i], labels[j]) == 0.0
  {
    LabelFound(labels, i);
    LabelFound(labels, j);
  }

  function KOf(p: BucketCurvature): real { p.kB * p.kB }

  function SOf(p: BucketCurvature): real { p.sB }

  function SSqOf(p: BucketCurvature): real { p.sB * p.sB }

  function ShortOf(p: BucketCurvature): real { if p.sB < 0.0 then p.sB else 0.0 }

  function ShortSqOf(p: BucketCurvature): real { if p.sB < 0.0 then p.sB * p.sB else 0.0 }

  /** One cross term at the squared correlation; two negative sums do not meet. */
  function SquaredTerm(corr: GammaSpec): (BucketCurvature, BucketCurvature) -> real {
    (p: BucketCurvature, q: BucketCurvature) =>
      var g := GammaOf(corr, p.bucket, q.bucket);
      if p.sB < 0.0 && q.sB < 0.0 then 0.0 else g * g * p.sB * q.sB
  }

  /** The sum of K_b squared and all cross terms. */
  function SquaredInterior(per: seq<BucketCurvature>, corr: GammaSpec): real {
    SumBy(KOf, per) + OffDiagonal(SquaredTerm(corr), per)
  }

  lemma SquaredTermIs(corr: GammaSpec, p: BucketCurvature, q: BucketCurvature)
    ensures CrossBuckets(SquareSpec(corr))(p, q) == SquaredTerm(corr)(p, q)
  {
    GammaSquared(corr, p.bucket, q.bucket);
  }

  lemma InteriorIs(per: seq<BucketCurvature>, corr: GammaSpec)
    ensures Interior(per, SquareSpec(corr)) == SquaredInterior(per, corr)
  {
    forall p, q | p in per && q in per ensures CrossBuckets(SquareSpec(corr))(p, q) == SquaredTerm(corr)(p, q) {
      SquaredTermIs(corr, p, q);
    }
    OffDiagonalSame(CrossBuckets(SquareSpec(corr)), SquaredTerm(corr), per, |per|);
    SumByEqual(KSquared, KOf, per);
  }

  lemma SumsAgree(per: seq<BucketCurvature>)
    ensures SumBy(KSquared, per) == SumBy(KOf, per) && SumBy(Held, per) == SumBy(SOf, per)
    ensures SumBy(HeldSq, per) == SumBy(SSqOf, per) && SumBy(HeldNegative, per) == SumBy(ShortOf, per)
    ensures SumBy(HeldNegativeSq, per) == SumBy(ShortSqOf, per)
  {
    SumByEqual(KSquared, KOf, per);
    SumByEqual(Held, SOf, per);
    SumByEqual(HeldSq, SSqOf, per);
    SumByEqual(HeldNegative, ShortOf, per);
    SumByEqual(HeldNegativeSq, ShortSqOf, per);
  }

  lemma Difference(c: real, a: real, b: real)
    ensures c * (a - b) == c * a - c * b
  {
  }

  /** The four sums at a correlation. */
  function FourSums(per: seq<BucketCurvature>, c: real): real {
    var s, n := SumBy(SOf, per), SumBy(ShortOf, per);
    SumBy(KOf, per) + c * ((s * s - SumBy(SSqOf, per)) - (n * n - SumBy(ShortSqOf, per)))
  }

  lemma InteriorAt(per: seq<BucketCurvature>, c: real)
    ensures Interior(per, Constant(c)) == FourSums(per, c)
  {
    InteriorClosed(per, c);
    SumsAgree(per);
    var s, n := SumBy(SOf, per), SumBy(ShortOf, per);
    Difference(c, s * s - SumBy(SSqOf, per), n * n - SumBy(ShortSqOf, per));
  }

  /** With one correlation for all pairs: the four sums at gamma squared. */
  lemma ConstantInterior(per: seq<BucketCurvature>, gamma: real, squared: real)
    requires squared == gamma * gamma
    ensures SquaredInterior(per, Constant(gamma)) == FourSums(per, squared)
  {
    InteriorIs(per, Constant(gamma));
    assert SquareSpec(Constant(gamma)) == Constant(squared);
    InteriorAt(per, squared);
  }

  /** Each sum cut to the range of its K_b. */
  function Clipped(per: seq<BucketCurvature>): seq<BucketCurvature> {
    seq(|per|, i requires 0 <= i < |per| =>
      var p := per[i];
      p.(sB := if p.sB > p.kB then p.kB else if p.sB < -p.kB then -p.kB else p.sB))
  }

  lemma ClippedIs(per: seq<BucketCurvature>)
    requires forall p | p in per :: p.kB >= 0.0
    ensures ClipAll(per) == Clipped(per)
  {
    forall i | 0 <= i < |per| ensures ClipAll(per)[i] == Clipped(per)[i] { assert per[i] in per; }
  }

  // ------------------------------------------------------------ the charge

  /** What the charge squares to: the interior, or what is left of it after clipping. */
  ghost predicate ChargeIs(charge: real, usedFallback: bool, per: seq<BucketCurvature>, corr: GammaSpec) {
    && charge >= 0.0 && (usedFallback <==> SquaredInterior(per, corr) < 0.0)
    && charge * charge == (if SquaredInterior(per, corr) >= 0.0 then SquaredInterior(per, corr)
                           else Max(0.0, SquaredInterior(Clipped(per), corr)))
  }

  lemma AggregateIs(per: seq<BucketCurvature>, corr: GammaSpec, root: real -> real)
    requires SbmDelta.IsRoot(root) && forall p | p in per :: p.kB >= 0.0
    ensures var a := Aggregate(per, SquareSpec(corr), root); ChargeIs(a.charge, a.usedFallback, per, corr)
  {
    InteriorIs(per, corr);
    InteriorIs(Clipped(per), corr);
    ClippedIs(per);
  }

  /** One bucket for each charged name, in ascending order unless an order is given, with the figures of its rows. */
  ghost predicate BucketsAre(per: seq<BucketCurvature>, rows: seq<Row>, schema: Schema) {
    && (forall p | p in per ::
          BucketFigures(p, Cvrs(rows, schema.exclude, p.bucket, "cvr_up"),
                        Cvrs(rows, schema.exclude, p.bucket, "cvr_down"), schema.intraRhoDelta))
    && (forall b :: HasBucket(per, b) <==> IsCharged(rows, schema, b))
    && match schema.bucketOrder
       case None => forall i, j | 0 <= i < j < |per| :: Less(per[i].bucket, per[j].bucket)
       case Some(order) => NamesOf(per) == Listed(rows, schema, order)
  }

  function NamesOf(per: seq<BucketCurvature>): seq<string> {
    seq(|per|, i requires 0 <= i < |per| => per[i].bucket)
  }

  /** Up unless some bucket is worse downwards; mixed if others are worse upwards. */
  ghost predicate DirectionIs(direction: Direction, per: seq<BucketCurvature>) {
    var ups, downs := exists p :: p in per && p.kUp > p.kDown, exists p :: p in per && p.kDown > p.kUp;
    direction == if !downs then Up else if ups then Mixed else Down
  }

  ghost predicate HasBucket(per: seq<BucketCurvature>, b: string) { exists p :: p in per && p.bucket == b }

  /**
   For every row list: the buckets have the figures of their own rows' numbers at the squared rho, and the charge
   squares to the interior at the squared gammas, or to the clipped one.
   */
  lemma EquityChargeExactly(rows: seq<Row>, schema: Schema, root: real -> real)
    requires SbmDelta.IsRoot(root)
    ensures var r := EquityCharge(rows, schema, root);
            && BucketsAre(r.perBucket, rows, schema)
            && ChargeIs(r.charge, r.usedFallback, r.perBucket, schema.crossGammaDelta)
            && DirectionIs(r.direction, r.perBucket)
  {
    var names := OrderedNames(BucketNames(rows, schema.exclude), schema.bucketOrder);
    var per := PerBucket(names, rows, schema, root);
    PerBucketFigures(rows, schema, root, names);
    AggregateIs(per, schema.crossGammaDelta, root);
    BucketsOf(per, rows, schema);
    DirectionOf(per, rows, schema);
  }

  lemma BucketsOf(per: seq<BucketCurvature>, rows: seq<Row>, schema: Schema)
    requires NamesOf(per) == OrderedNames(BucketNames(rows, schema.exclude), schema.bucketOrder)
    requires forall p | p in per ::
               BucketFigures(p, Cvrs(rows, schema.exclude, p.bucket, "cvr_up"),
                             Cvrs(rows, schema.exclude, p.bucket, "cvr_down"), schema.intraRhoDelta)
    ensures BucketsAre(per, rows, schema)
  {
    var names := NamesOf(per);
    forall b ensures HasBucket(per, b) <==> IsCharged(rows, schema, b) {
      ChargedBuckets(rows, schema, b);
      NamedBuckets(per, names, b);
    }
    ChargedBuckets(rows, schema, "");
    match schema.bucketOrder {
      case None => assert forall i | 0 <= i < |per| :: per[i].bucket == names[i];
      case Some(order) => ListedNames(rows, schema, order);
    }
  }

  lemma DirectionOf(per: seq<BucketCurvature>, rows: seq<Row>, schema: Schema)
    requires forall p | p in per ::
               BucketFigures(p, Cvrs(rows, schema.exclude, p.bucket, "cvr_up"),
                             Cvrs(rows, schema.exclude, p.bucket, "cvr_down"), schema.intraRhoDelta)
    ensures DirectionIs(SummariseDirection(per), per)
  {
    forall p | p in per
      ensures (p.direction == Up <==> p.kUp > p.kDown) && (p.direction == Down <==> p.kDown > p.kUp)
    {
      RootsCompare(p.kUp, p.kDown);
    }
    assert forall i | 0 <= i < |per| :: per[i] in per;
  }

  lemma NamedBuckets(per: seq<BucketCurvature>, names: seq<string>, b: string)
    requires |per| == |names| && forall i | 0 <= i < |names| :: per[i].bucket == names[i]
    ensures HasBucket(per, b) <==> b in names
  {
    if b in names {
      var i :| 0 <= i < |names| && names[i] == b;
      assert per[i] in per && per[i].bucket == b;
    }
  }

  lemma PerBucketFigures(rows: seq<Row>, schema: Schema, root: real -> real, names: seq<string>)
    requires SbmDelta.IsRoot(root)
    ensures var per := PerBucket(names, rows, schema, root);
            && (forall i | 0 <= i < |names| :: per[i].bucket == names[i])
            && (forall p | p in per :: p.kB >= 0.0
                 && BucketFigures(p, Cvrs(rows, schema.exclude, p.bucket, "cvr_up"),
                                  Cvrs(rows, schema.exclude, p.bucket, "cvr_down"), schema.intraRhoDelta))
  {
    var per := PerBucket(names, rows, schema, root);
    forall i | 0 <= i < |names|
      ensures per[i].bucket == names[i] && per[i].kB >= 0.0
              && BucketFigures(per[i], Cvrs(rows, schema.exclude, per[i].bucket, "cvr_up"),
                               Cvrs(rows, schema.exclude, per[i].bucket, "cvr_down"), schema.intraRhoDelta)
    {
      var b := names[i];
      AccumIs(rows, schema.exclude, b);
      LegsTogether(rows, schema.exclude, b);
      ResolvedFigures(b, Cvrs(rows, schema.exclude, b, "cvr_up"), Cvrs(rows, schema.exclude, b, "cvr_down"),
          schema.intraRhoDelta, root);
      var a := AccumOf(Pairs(rows, schema.exclude, b));
      assert a == Accum(Cvrs(rows, schema.exclude, b, "cvr_up"), Cvrs(rows, schema.exclude, b, "cvr_down"),
          |Cvrs(rows, schema.exclude, b, "cvr_up")|);
    }
  }
}
