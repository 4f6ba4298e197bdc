/**
 The curvature aggregation of section 21.5 of the Basel Framework chapter MAR21 and
 the Equity reference that feeds it from rows.

 Amounts are reals and the square root is the parameter `root`.
 */
module Curvature {
  import opened Json
  import opened Sums
  import opened Listing
  import SbmDelta

  /** Zero when both arguments are strictly negative, one otherwise. */
  function Psi(a: real, b: real): real { if a < 0.0 && b < 0.0 then 0.0 else 1.0 }

  /** One gated cross term. */
  function Gated(rho: real): (real, real) -> real { (a: real, b: real) => rho * a * b * Psi(a, b) }

  /** The interior of K_b for one direction, as the standard writes it; it may be negative. */
  function KbSquared(cvr: seq<real>, rho: real): real {
    SbmDelta.TotalSq(cvr) + OffDiagonal(Gated(rho), cvr)
  }

  method KbSquaredForDirection(cvr: seq<real>, rhoCurv: real) returns (kbSq: real)
    ensures kbSq == KbSquared(cvr, rhoCurv)
  {
    var sumSq := 0.0;
    for i := 0 to |cvr|
      invariant sumSq == SbmDelta.TotalSq(cvr[..i])
    {
      assert cvr[..i + 1] == cvr[..i] + [cvr[i]];
      SumBySnoc(Square, cvr[..i], cvr[i]);
      sumSq := sumSq + cvr[i] * cvr[i];
    }
    assert cvr[..|cvr|] == cvr;
    var cross := 0.0;
    for k := 0 to |cvr|
      invariant cross == OffDiagonalTo(Gated(rhoCurv), cvr, k)
    {
      var a := cvr[k];
      for l := 0 to |cvr|
        invariant cross == OffDiagonalTo(Gated(rhoCurv), cvr, k) + OffRow(Gated(rhoCurv), cvr, k, l)
      {
        if k != l {
          cross := cross + rhoCurv * a * cvr[l] * Psi(a, cvr[l]);
        }
      }
    }
    kbSq := sumSq + cross;
  }

  // ------------------------------------------------------------ closed form

  function Negative(x: real): real { if x < 0.0 then x else 0.0 }

  function NegativeSq(x: real): real { Negative(x) * Negative(x) }

  lemma GateIsDifference(rho: real, a: real, b: real)
    ensures rho * a * b * Psi(a, b) == rho * a * b - rho * Negative(a) * Negative(b)
  {
  }

  lemma GatedProducts(rho: real)
    ensures IsGatedProduct(Gated(rho), rho, Identity, Negative)
  {
    forall a, b ensures Gated(rho)(a, b) == Product(rho, Identity)(a, b) - Product(rho, Negative)(a, b) {
      ProductAt(rho, Identity, a, b, a, b);
      ProductAt(rho, Negative, a, b, Negative(a), Negative(b));
      GateIsDifference(rho, a, b);
    }
  }

  /** The gated double loop needs only four sums: S, Q, and the same two over the negative entries. */
  lemma KbSquaredClosed(cvr: seq<real>, rho: real)
    ensures var s, q := SbmDelta.Total(cvr), SbmDelta.TotalSq(cvr);
            var n, qn := SumBy(Negative, cvr), SumBy(NegativeSq, cvr);
            KbSquared(cvr, rho) == q + (rho * (s * s - q) - rho * (n * n - qn))
  {
    GatedProducts(rho);
    OffDiagonalGated(Gated(rho), rho, Identity, Square, Negative, NegativeSq, cvr);
  }

  lemma KbSquaredPermutation(xs: seq<real>, ys: seq<real>, rho: real)
    requires multiset(xs) == multiset(ys)
    ensures KbSquared(xs, rho) == KbSquared(ys, rho)
    ensures SbmDelta.Total(xs) == SbmDelta.Total(ys)
  {
    SumByPermutation(Square, xs, ys);
    SumByPermutation(Identity, xs, ys);
    OffDiagonalPermutation(Gated(rho), xs, ys);
  }

  function FromTotals(rho: real, s: real, q: real, n: real, qn: real): real {
    q + (rho * (s * s - q) - rho * (n * n - qn))
  }

  lemma KbSquaredByTotals(cvr: seq<real>, rho: real)
    ensures KbSquared(cvr, rho)
            == FromTotals(rho, SumBy(Identity, cvr), SumBy(Square, cvr), SumBy(Negative, cvr), SumBy(NegativeSq, cvr))
  {
    KbSquaredClosed(cvr, rho);
  }

  /** Zero-padding a CVR vector changes neither its K_b interior nor its S_b. */
  lemma KbSquaredZeroPadding(cvr: seq<real>, zeros: seq<real>, rho: real)
    requires forall z | z in zeros :: z == 0.0
    ensures KbSquared(cvr + zeros, rho) == KbSquared(cvr, rho)
    ensures SbmDelta.Total(cvr + zeros) == SbmDelta.Total(cvr)
  {
    KbSquaredByTotals(cvr + zeros, rho);
    KbSquaredByTotals(cvr, rho);
    assert SumBy(Identity, cvr + zeros) == SumBy(Identity, cvr) by { PaddingLeavesSum(Identity, cvr, zeros); }
    assert SumBy(Square, cvr + zeros) == SumBy(Square, cvr) by { PaddingLeavesSum(Square, cvr, zeros); }
    assert SumBy(Negative, cvr + zeros) == SumBy(Negative, cvr) by { PaddingLeavesSum(Negative, cvr, zeros); }
    assert SumBy(NegativeSq, cvr + zeros) == SumBy(NegativeSq, cvr) by { PaddingLeavesSum(NegativeSq, cvr, zeros); }
  }

  lemma PaddingLeavesSum(f: real -> real, cvr: seq<real>, zeros: seq<real>)
    requires f(0.0) == 0.0
    requires forall z | z in zeros :: z == 0.0
    ensures SumBy(f, cvr + zeros) == SumBy(f, cvr)
  {
    SumByAppend(f, cvr, zeros);
    forall z | z in zeros ensures f(z) == 0.0 {
      assert z == 0.0;
    }
    SumByZero(f, zeros);
  }

  // ------------------------------------------------------------ one bucket

  datatype Direction = Up | Down | Tie | Mixed

  datatype BucketCurvature = BucketCurvature(
    bucket: string, kB: real, kUp: real, kDown: real, sB: real, sUp: real, sDown: real, direction: Direction,
    count: nat)

  /** The worse direction wins; a tie takes the upward figures. */
  function ResolveBucket(bucket: string, up: seq<real>, down: seq<real>, rhoCurv: real, count: nat,
      root: real -> real): BucketCurvature {
    var kUp := root(Max(0.0, KbSquared(up, rhoCurv)));
    var kDown := root(Max(0.0, KbSquared(down, rhoCurv)));
    var sUp, sDown := SbmDelta.Total(up), SbmDelta.Total(down);
    if kUp > kDown then BucketCurvature(bucket, kUp, kUp, kDown, sUp, sUp, sDown, Up, count)
    else if kDown > kUp then BucketCurvature(bucket, kDown, kUp, kDown, sDown, sUp, sDown, Down, count)
    else BucketCurvature(bucket, kUp, kUp, kDown, sUp, sUp, sDown, Tie, count)
  }

  /** The reported K_b squared is the largest of the two interiors and zero. */
  lemma ResolveBucketIsWorst(bucket: string, up: seq<real>, down: seq<real>, rhoCurv: real, count: nat,
      root: real -> real)
    requires SbmDelta.IsRoot(root)
    ensures var r := ResolveBucket(bucket, up, down, rhoCurv, count, root);
            && r.kB >= 0.0
            && r.kB * r.kB == Max(0.0, Max(KbSquared(up, rhoCurv), KbSquared(down, rhoCurv)))
            && (r.direction == Down ==> r.sB == SbmDelta.Total(down))
            && (r.direction != Down ==> r.sB == SbmDelta.Total(up))
  {
    var r := ResolveBucket(bucket, up, down, rhoCurv, count, root);
    RootsCompare(r.kUp, r.kDown);
  }

  lemma RootsCompare(a: real, b: real)
    requires a >= 0.0 && b >= 0.0
    ensures a > b ==> a * a > b * b
    ensures b > a ==> b * b > a * a
  {
    SbmDelta.SignOfProduct(a + b, a - b);
    assert a * a - b * b == (a + b) * (a - b);
  }

  method ResolveBucketCurvature(
    bucket: string, cvrUp: seq<real>, cvrDown: seq<real>, rhoCurv: real, count: nat, root: real -> real)
    returns (r: BucketCurvature)
    ensures r == ResolveBucket(bucket, cvrUp, cvrDown, rhoCurv, count, root)
  {
    var kbUpSq := KbSquaredForDirection(cvrUp, rhoCurv);
    var kbDownSq := KbSquaredForDirection(cvrDown, rhoCurv);
    var kUp, kDown := root(Max(0.0, kbUpSq)), root(Max(0.0, kbDownSq));
    var sUp := SumLoop(cvrUp);
    var sDown := SumLoop(cvrDown);
    if kUp > kDown {
      r := BucketCurvature(bucket, kUp, kUp, kDown, sUp, sUp, sDown, Up, count);
    } else if kDown > kUp {
      r := BucketCurvature(bucket, kDown, kUp, kDown, sDown, sUp, sDown, Down, count);
    } else {
      r := BucketCurvature(bucket, kUp, kUp, kDown, sUp, sUp, sDown, Tie, count);
    }
  }

  method SumLoop(xs: seq<real>) returns (s: real)
    ensures s == SbmDelta.Total(xs)
  {
    s := 0.0;
    for i := 0 to |xs|
      invariant s == SbmDelta.Total(xs[..i])
    {
      assert xs[..i + 1] == xs[..i] + [xs[i]];
      SumBySnoc(Identity, xs[..i], xs[i]);
      s := s + xs[i];
    }
    assert xs[..|xs|] == xs;
  }

  // ------------------------------------------------------------ across buckets

  datatype GammaSpec = Constant(value: real) | Matrix(labels: seq<string>, matrix: seq<seq<real>>)

  /** The last position of a label, as a map filled in order holds it. */
  function LabelIndex(labels: seq<string>, name: string): Option<nat> {
    if labels == [] then None
    else if labels[|labels| - 1] == name then Some(|labels| - 1)
    else LabelIndex(labels[..|labels| - 1], name)
  }

  function GammaOf(corr: GammaSpec, b: string, c: string): real {
    match corr
    case Constant(value) => value
    case Matrix(labels, matrix) =>
      match (LabelIndex(labels, b), LabelIndex(labels, c))
      case (Some(i), Some(j)) => if i < |matrix| && j < |matrix[i]| then matrix[i][j] else 0.0
      case _ => 0.0
  }

  function SquareSpec(spec: GammaSpec): GammaSpec {
    match spec
    case Constant(value) => Constant(value * value)
    case Matrix(labels, matrix) =>
      Matrix(labels, seq(|matrix|, i requires 0 <= i < |matrix| =>
        seq(|matrix[i]|, j requires 0 <= j < |matrix[i]| => matrix[i][j] * matrix[i][j])))
  }

  function CrossBuckets(gamma: GammaSpec): (BucketCurvature, BucketCurvature) -> real {
    (p: BucketCurvature, q: BucketCurvature) => CrossTerm(GammaOf(gamma, p.bucket, q.bucket), p.sB, q.sB)
  }

  function CrossTerm(g: real, a: real, b: real): real { g * a * b * Psi(a, b) }

  function KSquared(p: BucketCurvature): real { p.kB * p.kB }

  function Interior(per: seq<BucketCurvature>, gamma: GammaSpec): real {
    SumBy(KSquared, per) + OffDiagonal(CrossBuckets(gamma), per)
  }

  function Clip(p: BucketCurvature): BucketCurvature { p.(sB := Max(Min(p.sB, p.kB), -p.kB)) }

  function ClipAll(per: seq<BucketCurvature>): seq<BucketCurvature> {
    seq(|per|, i requires 0 <= i < |per| => Clip(per[i]))
  }

  datatype Charge = Charge(charge: real, usedFallback: bool)

  function Aggregate(per: seq<BucketCurvature>, gamma: GammaSpec, root: real -> real): Charge {
    if per == [] then Charge(0.0, false)
    else if Interior(per, gamma) >= 0.0 then Charge(root(Interior(per, gamma)), false)
    else Charge(root(Max(Interior(ClipAll(per), gamma), 0.0)), true)
  }

  lemma {:induction false} ClipKeepsK(per: seq<BucketCurvature>)
    ensures SumBy(KSquared, ClipAll(per)) == SumBy(KSquared, per)
  {
    if per != [] {
      assert ClipAll(per)[1..] == ClipAll(per[1..]);
      ClipKeepsK(per[1..]);
    }
  }

  method CrossTerms(per: seq<BucketCurvature>, gamma: GammaSpec) returns (cross: real)
    ensures cross == OffDiagonal(CrossBuckets(gamma), per)
  {
    cross := 0.0;
    for i := 0 to |per|
      invariant cross == OffDiagonalTo(CrossBuckets(gamma), per, i)
    {
      for j := 0 to |per|
        invariant cross == OffDiagonalTo(CrossBuckets(gamma), per, i) + OffRow(CrossBuckets(gamma), per, i, j)
      {
        if i != j {
          var g := GammaOf(gamma, per[i].bucket, per[j].bucket);
          cross := cross + CrossTerm(g, per[i].sB, per[j].sB);
        }
      }
    }
  }

  method AggregateAcrossBuckets(per: seq<BucketCurvature>, gammaCurv: GammaSpec, root: real -> real) returns (r: Charge)
    ensures r == Aggregate(per, gammaCurv, root)
  {
    if per == [] { return Charge(0.0, false); }
    var sumK2 := 0.0;
    for i := 0 to |per|
      invariant sumK2 == SumBy(KSquared, per[..i])
    {
      assert per[..i + 1] == per[..i] + [per[i]];
      SumBySnoc(KSquared, per[..i], per[i]);
      sumK2 := sumK2 + per[i].kB * per[i].kB;
    }
    assert per[..|per|] == per;
    var cross := CrossTerms(per, gammaCurv);
    var sum := sumK2 + cross;
    if sum >= 0.0 { return Charge(root(sum), false); }
    ClipKeepsK(per);
    var crossAlt := CrossTerms(ClipAll(per), gammaCurv);
    r := Charge(root(Max(sumK2 + crossAlt, 0.0)), true);
  }

  function Held(p: BucketCurvature): real { p.sB }

  function HeldSq(p: BucketCurvature): real { p.sB * p.sB }

  function HeldNegative(p: BucketCurvature): real { Negative(p.sB) }

  function HeldNegativeSq(p: BucketCurvature): real { Negative(p.sB) * Negative(p.sB) }

  /** With one gamma for all pairs, the cross-bucket interior has the same four-sum form. */
  lemma InteriorClosed(per: seq<BucketCurvature>, g: real)
    ensures var s, q := SumBy(Held, per), SumBy(HeldSq, per);
            var n, qn := SumBy(HeldNegative, per), SumBy(HeldNegativeSq, per);
            Interior(per, Constant(g)) == SumBy(KSquared, per) + (g * (s * s - q) - g * (n * n - qn))
  {
    var cross := CrossBuckets(Constant(g));
    assert IsGatedProduct(cross, g, Held, HeldNegative) by {
      forall p, q ensures cross(p, q) == Product(g, Held)(p, q) - Product(g, HeldNegative)(p, q) {
        ProductAt(g, Held, p, q, p.sB, q.sB);
        ProductAt(g, HeldNegative, p, q, Negative(p.sB), Negative(q.sB));
        GateIsDifference(g, p.sB, q.sB);
      }
    }
    OffDiagonalGated(cross, g, Held, HeldSq, HeldNegative, HeldNegativeSq, per);
  }

  function SummariseDirection(per: seq<BucketCurvature>): Direction {
    var sawUp := exists i :: 0 <= i < |per| && per[i].direction == Up;
    var sawDown := exists i :: 0 <= i < |per| && per[i].direction == Down;
    if sawUp && sawDown then Mixed else if sawDown then Down else Up
  }

  // ------------------------------------------------------------ the Equity reference

  datatype Row = Row(
    sensitivityType: string, bucket: string, riskValue: Json, book: Option<string>, tradeId: Option<string>,
    riskFactor: Option<string>)

  datatype Exclude = Exclude(book: set<string>, tradeId: set<string>, riskFactor: set<string>)

  predicate IsRowExcluded(row: Row, exclude: Exclude) {
    || (row.book.Some? && row.book.value in exclude.book)
    || (row.tradeId.Some? && row.tradeId.value in exclude.tradeId)
    || (row.riskFactor.Some? && row.riskFactor.value in exclude.riskFactor)
  }

  datatype Pair = Pair(up: real, down: real)

  function ReadScalarPair(raw: Json): Option<Pair> {
    if !raw.JObj? then None
    else match (Lookup(raw.fields, "cvr_up"), Lookup(raw.fields, "cvr_down"))
      case (JNum(up), JNum(down)) => Some(Pair(up, down))
      case _ => None
  }

  /** The pair a row contributes and the bucket it goes to, if it contributes at all. */
  function BucketPair(exclude: Exclude): Row -> Option<(string, Pair)> {
    (row: Row) =>
      if row.sensitivityType != "Curvature" || row.bucket == "" || IsRowExcluded(row, exclude) then None
      else match ReadScalarPair(row.riskValue)
        case Some(pair) => Some((row.bucket, pair))
        case None => None
  }

  function InBucket(bucket: string): ((string, Pair)) -> Option<Pair> {
    (c: (string, Pair)) => if c.0 == bucket then Some(c.1) else None
  }

  function UpOf(): Pair -> Option<real> { (p: Pair) => Some(p.up) }

  function DownOf(): Pair -> Option<real> { (p: Pair) => Some(p.down) }

  function BucketName(): ((string, Pair)) -> Option<string> { (c: (string, Pair)) => Some(c.0) }

  function Pairs(rows: seq<Row>, exclude: Exclude, bucket: string): seq<Pair> {
    FilterMap(InBucket(bucket), FilterMap(BucketPair(exclude), rows))
  }

  /** Bucket names in the order their first contributing row arrives. */
  function BucketNames(rows: seq<Row>, exclude: Exclude): seq<string> {
    Distinct(FilterMap(BucketName(), FilterMap(BucketPair(exclude), rows)))
  }

  datatype Schema = Schema(
    intraRhoDelta: real, crossGammaDelta: GammaSpec, bucketOrder: Option<seq<string>>, exclude: Exclude)

  function Keep(names: seq<string>): string -> Option<string> { (b: string) => if b in names then Some(b) else None }

  function OrderedNames(names: seq<string>, order: Option<seq<string>>): seq<string> {
    match order
    case Some(bs) => FilterMap(Keep(names), bs)
    case None => Sort(names)
  }

  datatype Accum = Accum(cvrUp: seq<real>, cvrDown: seq<real>, count: nat)

  function AccumOf(pairs: seq<Pair>): Accum {
    Accum(FilterMap(UpOf(), pairs), FilterMap(DownOf(), pairs), |pairs|)
  }

  function ResolveAccum(b: string, a: Accum, rhoDelta: real, root: real -> real): BucketCurvature {
    ResolveBucket(b, a.cvrUp, a.cvrDown, rhoDelta * rhoDelta, a.count, root)
  }

  function PerBucket(names: seq<string>, rows: seq<Row>, schema: Schema, root: real -> real): seq<BucketCurvature> {
    seq(|names|, i requires 0 <= i < |names| =>
      ResolveAccum(names[i], AccumOf(Pairs(rows, schema.exclude, names[i])), schema.intraRhoDelta, root))
  }

  datatype Result = Result(perBucket: seq<BucketCurvature>, charge: real, direction: Direction, usedFallback: bool)

  /** The charge as a function of the rows, bucket by bucket. */
  function EquityCharge(rows: seq<Row>, schema: Schema, root: real -> real): Result {
    var names := OrderedNames(BucketNames(rows, schema.exclude), schema.bucketOrder);
    var per := PerBucket(names, rows, schema, root);
    var a := Aggregate(per, SquareSpec(schema.crossGammaDelta), root);
    Result(per, a.charge, SummariseDirection(per), a.usedFallback)
  }

  lemma AccumPermutation(pairs: seq<Pair>, pairs': seq<Pair>)
    requires multiset(pairs) == multiset(pairs')
    ensures multiset(AccumOf(pairs).cvrUp) == multiset(AccumOf(pairs').cvrUp)
    ensures multiset(AccumOf(pairs).cvrDown) == multiset(AccumOf(pairs').cvrDown)
    ensures AccumOf(pairs).count == AccumOf(pairs').count
  {
    assert |pairs| == |multiset(pairs)| == |multiset(pairs')| == |pairs'|;
    FilterMapPermutation(UpOf(), pairs, pairs');
    FilterMapPermutation(DownOf(), pairs, pairs');
  }

  lemma ResolvePermutation(b: string, a: Accum, a': Accum, rhoDelta: real, root: real -> real)
    requires multiset(a.cvrUp) == multiset(a'.cvrUp) && multiset(a.cvrDown) == multiset(a'.cvrDown)
             && a.count == a'.count
    ensures ResolveAccum(b, a, rhoDelta, root) == ResolveAccum(b, a', rhoDelta, root)
  {
    KbSquaredPermutation(a.cvrUp, a'.cvrUp, rhoDelta * rhoDelta);
    KbSquaredPermutation(a.cvrDown, a'.cvrDown, rhoDelta * rhoDelta);
  }

  lemma PairsPermutation(rows: seq<Row>, rows': seq<Row>, exclude: Exclude, b: string)
    requires multiset(rows) == multiset(rows')
    ensures multiset(Pairs(rows, exclude, b)) == multiset(Pairs(rows', exclude, b))
  {
    FilterMapPermutation(BucketPair(exclude), rows, rows');
    FilterMapPermutation(InBucket(b), FilterMap(BucketPair(exclude), rows), FilterMap(BucketPair(exclude), rows'));
  }

  lemma NamesPermutation(rows: seq<Row>, rows': seq<Row>, exclude: Exclude, order: Option<seq<string>>)
    requires multiset(rows) == multiset(rows')
    ensures OrderedNames(BucketNames(rows, exclude), order) == OrderedNames(BucketNames(rows', exclude), order)
  {
    var cs, cs' := FilterMap(BucketPair(exclude), rows), FilterMap(BucketPair(exclude), rows');
    var ns, ns' := FilterMap(BucketName(), cs), FilterMap(BucketName(), cs');
    FilterMapPermutation(BucketPair(exclude), rows, rows');
    FilterMapPermutation(BucketName(), cs, cs');
    DistinctElements(ns);
    DistinctElements(ns');
    forall b ensures b in Distinct(ns) <==> b in Distinct(ns') {
      assert b in ns <==> b in multiset(ns);
      assert b in ns' <==> b in multiset(ns');
    }
    match order {
      case None =>
        SortAscending(Distinct(ns));
        SortAscending(Distinct(ns'));
        AscendingUnique(Sort(Distinct(ns)), Sort(Distinct(ns')));
      case Some(bs) =>
        KeepSameNames(Distinct(ns), Distinct(ns'), bs);
    }
  }

  lemma {:induction false} KeepSameNames(names: seq<string>, names': seq<string>, bs: seq<string>)
    requires forall b :: b in names <==> b in names'
    ensures FilterMap(Keep(names), bs) == FilterMap(Keep(names'), bs)
  {
    if bs != [] {
      KeepSameNames(names, names', bs[..|bs| - 1]);
    }
  }

  /** Row order, and with it batch boundaries and arrival races, cannot change any reported figure. */
  lemma EquityChargeOrderIndependent(rows: seq<Row>, rows': seq<Row>, schema: Schema, root: real -> real)
    requires multiset(rows) == multiset(rows')
    ensures EquityCharge(rows, schema, root) == EquityCharge(rows', schema, root)
  {
    NamesPermutation(rows, rows', schema.exclude, schema.bucketOrder);
    var names := OrderedNames(BucketNames(rows, schema.exclude), schema.bucketOrder);
    var per, per' := PerBucket(names, rows, schema, root), PerBucket(names, rows', schema, root);
    forall i | 0 <= i < |names| ensures per[i] == per'[i] {
      var pairs, pairs' := Pairs(rows, schema.exclude, names[i]), Pairs(rows', schema.exclude, names[i]);
      PairsPermutation(rows, rows', schema.exclude, names[i]);
      AccumPermutation(pairs, pairs');
      ResolvePermutation(names[i], AccumOf(pairs), AccumOf(pairs'), schema.intraRhoDelta, root);
    }
    assert per == per';
  }

  // ------------------------------------------------------------ the code's single pass

  const NOTHING := Accum([], [], 0)

  function AccumAt(buckets: map<string, Accum>, b: string): Accum { if b in buckets then buckets[b] else NOTHING }

  ghost predicate NamesGrouped(rows: seq<Row>, exclude: Exclude, order: seq<string>, buckets: map<string, Accum>) {
    order == BucketNames(rows, exclude) && forall b :: b in buckets <==> b in order
  }

  ghost predicate ValuesGrouped(rows: seq<Row>, exclude: Exclude, buckets: map<string, Accum>) {
    forall b :: AccumAt(buckets, b) == AccumOf(Pairs(rows, exclude, b))
  }

  lemma GroupStep(rows: seq<Row>, i: nat, exclude: Exclude, b: string)
    requires i < |rows|
    ensures var c := BucketPair(exclude)(rows[i]);
            && Pairs(rows[..i + 1], exclude, b)
               == Pairs(rows[..i], exclude, b) + (if c.Some? && c.value.0 == b then [c.value.1] else [])
            && BucketNames(rows[..i + 1], exclude)
               == (var names := BucketNames(rows[..i], exclude);
                   if c.Some? && c.value.0 !in names then names + [c.value.0] else names)
  {
    var c := BucketPair(exclude)(rows[i]);
    var before := FilterMap(BucketPair(exclude), rows[..i]);
    assert rows[..i + 1][..i] == rows[..i];
    if c.Some? {
      var after := before + [c.value];
      assert after[..|before|] == before;
      assert FilterMap(BucketPair(exclude), rows[..i + 1]) == after;
      var names := FilterMap(BucketName(), before);
      assert FilterMap(BucketName(), after) == names + [c.value.0];
      assert (names + [c.value.0])[..|names|] == names;
    } else {
      assert FilterMap(BucketPair(exclude), rows[..i + 1]) == before;
    }
  }

  function Pushed(a: Accum, p: Pair): Accum { Accum(a.cvrUp + [p.up], a.cvrDown + [p.down], a.count + 1) }

  lemma AccumSnoc(pairs: seq<Pair>, p: Pair)
    ensures AccumOf(pairs + [p]) == Pushed(AccumOf(pairs), p)
  {
    assert (pairs + [p])[..|pairs|] == pairs;
  }

  lemma AccumStep(rows: seq<Row>, i: nat, exclude: Exclude, b: string)
    requires i < |rows|
    ensures var c := BucketPair(exclude)(rows[i]);
            AccumOf(Pairs(rows[..i + 1], exclude, b))
            == if c.Some? && c.value.0 == b then Pushed(AccumOf(Pairs(rows[..i], exclude, b)), c.value.1)
               else AccumOf(Pairs(rows[..i], exclude, b))
  {
    var c := BucketPair(exclude)(rows[i]);
    GroupStep(rows, i, exclude, b);
    if c.Some? && c.value.0 == b {
      AccumSnoc(Pairs(rows[..i], exclude, b), c.value.1);
    } else {
      assert Pairs(rows[..i + 1], exclude, b) == Pairs(rows[..i], exclude, b);
    }
  }

  lemma NamesGroupedStep(rows: seq<Row>, i: nat, exclude: Exclude, order: seq<string>, buckets: map<string, Accum>,
                         order': seq<string>, buckets': map<string, Accum>)
    requires i < |rows| && NamesGrouped(rows[..i], exclude, order, buckets)
    requires var c := BucketPair(exclude)(rows[i]);
             if c.None? then order' == order && buckets'.Keys == buckets.Keys
             else
               && order' == (if c.value.0 in buckets then order else order + [c.value.0])
               && buckets'.Keys == buckets.Keys + {c.value.0}
    ensures NamesGrouped(rows[..i + 1], exclude, order', buckets')
  {
    GroupStep(rows, i, exclude, "");
    var c := BucketPair(exclude)(rows[i]);
    forall b ensures b in buckets' <==> b in order' {
      assert b in buckets' <==> b in buckets'.Keys;
      assert b in buckets <==> b in buckets.Keys;
    }
  }

  lemma ValuesGroupedStep(rows: seq<Row>, i: nat, exclude: Exclude, buckets: map<string, Accum>,
      buckets': map<string, Accum>)
    requires i < |rows| && ValuesGrouped(rows[..i], exclude, buckets)
    requires var c := BucketPair(exclude)(rows[i]);
             buckets' == if c.None? then buckets
                         else buckets[c.value.0 := Pushed(AccumAt(buckets, c.value.0), c.value.1)]
    ensures ValuesGrouped(rows[..i + 1], exclude, buckets')
  {
    forall b ensures AccumAt(buckets', b) == AccumOf(Pairs(rows[..i + 1], exclude, b)) {
      AccumStep(rows, i, exclude, b);
      assert AccumAt(buckets, b) == AccumOf(Pairs(rows[..i], exclude, b));
    }
  }

  method ComputeEquityCurvatureCharge(rows: seq<Row>, schema: Schema, root: real -> real) returns (r: Result)
    ensures r == EquityCharge(rows, schema, root)
  {
    var gammaCurv := SquareSpec(schema.crossGammaDelta);
    var order: seq<string>, buckets: map<string, Accum> := [], map[];
    for i := 0 to |rows|
      invariant NamesGrouped(rows[..i], schema.exclude, order, buckets)
      invariant ValuesGrouped(rows[..i], schema.exclude, buckets)
    {
      var row := rows[i];
      ghost var order0, buckets0 := order, buckets;
      if row.sensitivityType == "Curvature" && row.bucket != "" && !IsRowExcluded(row, schema.exclude) {
        var pair := ReadScalarPair(row.riskValue);
        if pair.Some? {
          var accum := AccumAt(buckets, row.bucket);
          if row.bucket !in buckets {
            order := order + [row.bucket];
          }
          buckets := buckets[row.bucket := Pushed(accum, pair.value)];
        }
      }
      NamesGroupedStep(rows, i, schema.exclude, order0, buckets0, order, buckets);
      ValuesGroupedStep(rows, i, schema.exclude, buckets0, buckets);
    }
    assert rows[..|rows|] == rows;
    var names := OrderedNames(order, schema.bucketOrder);
    NamesAreGrouped(rows, schema, order);
    var per := ResolveAll(rows, schema, root, names, buckets);
    var a := AggregateAcrossBuckets(per, gammaCurv, root);
    r := Result(per, a.charge, SummariseDirection(per), a.usedFallback);
  }

  lemma NamesAreGrouped(rows: seq<Row>, schema: Schema, order: seq<string>)
    requires order == BucketNames(rows, schema.exclude)
    ensures forall b | b in OrderedNames(order, schema.bucketOrder) :: b in order
  {
    DistinctElements(FilterMap(BucketName(), FilterMap(BucketPair(schema.exclude), rows)));
    match schema.bucketOrder {
      case None => SortAscending(order);
      case Some(bs) =>
        forall b | b in FilterMap(Keep(order), bs) ensures b in order {
          FilterMapMembers(Keep(order), bs, b);
        }
    }
  }

  lemma PerBucketAt(rows: seq<Row>, schema: Schema, root: real -> real, names: seq<string>, buckets: map<string, Accum>,
      i: nat)
    requires ValuesGrouped(rows, schema.exclude, buckets) && i < |names| && names[i] in buckets
    ensures PerBucket(names, rows, schema, root)[i]
            == ResolveAccum(names[i], buckets[names[i]], schema.intraRhoDelta, root)
  {
    assert AccumAt(buckets, names[i]) == AccumOf(Pairs(rows, schema.exclude, names[i]));
  }

  method ResolveAll(ghost rows: seq<Row>, schema: Schema, root: real -> real, names: seq<string>,
      buckets: map<string, Accum>)
    returns (per: seq<BucketCurvature>)
    requires ValuesGrouped(rows, schema.exclude, buckets)
    requires forall b | b in names :: b in buckets
    ensures per == PerBucket(names, rows, schema, root)
  {
    per := [];
    ghost var all := PerBucket(names, rows, schema, root);
    for i := 0 to |names|
      invariant per == all[..i]
    {
      assert names[i] in names;
      PerBucketAt(rows, schema, root, names, buckets, i);
      var bc := ResolveOne(names[i], buckets[names[i]], schema.intraRhoDelta, root);
      per := per + [bc];
    }
  }

  method ResolveOne(b: string, accum: Accum, rhoDelta: real, root: real -> real) returns (r: BucketCurvature)
    ensures r == ResolveAccum(b, accum, rhoDelta, root)
  {
    r := ResolveBucketCurvature(b, accum.cvrUp, accum.cvrDown, rhoDelta * rhoDelta, accum.count, root);
  }
}
