/**
 The constant-correlation Delta/Vega aggregation of section 21.4 of the Basel
 Framework chapter MAR21: the per-bucket kernel and the cross-bucket reduce.

 Floating-point rounding is not modelled: amounts are reals. The square root is a
 parameter `root`; where its meaning matters, `IsRoot(root)` says that it is one.
 */
module SbmDelta {
  import opened Json
  import opened Sums

  ghost predicate IsRoot(root: real -> real) {
    forall x: real :: x >= 0.0 ==> root(x) >= 0.0 && root(x) * root(x) == x
  }

  function Total(ws: seq<real>): real { SumBy(Identity, ws) }

  function TotalSq(ws: seq<real>): real { SumBy(Square, ws) }

  // ------------------------------------------------------------ the standard's text

  /** One cross term rho * WS_k * WS_l. */
  function Correlated(rho: real): (real, real) -> real { (a, b) => rho * a * b }

  /** The sum of all WS_k^2 plus rho * WS_k * WS_l over all pairs k != l, as the standard writes it. */
  function DoubleSum(ws: seq<real>, rho: real): real { TotalSq(ws) + OffDiagonal(Correlated(rho), ws) }

  lemma Distribute(a: real, b: real, c: real)
    ensures a * (b + c) == a * b + a * c
  {
  }

  lemma SameProduct(c: real, a: real, b: real)
    requires a == b
    ensures c * a == c * b
  {
  }

  /** The double sum is the closed form the code evaluates from two running sums. */
  lemma DoubleSumClosed(ws: seq<real>, rho: real)
    ensures DoubleSum(ws, rho) == TotalSq(ws) + rho * (Total(ws) * Total(ws) - TotalSq(ws))
  {
    OffDiagonalTotals(Correlated(rho), rho, Identity, Square, ws, Total(ws), TotalSq(ws));
  }

  // ------------------------------------------------------------ the bucket kernel

  /** K_b squared from the two running sums; both clamps of the code are kept. */
  function KernelSq(sumWs: real, sumWsSq: real, rho: real): real {
    var cross := sumWs * sumWs - sumWsSq;
    var clamped := if cross < 0.0 then 0.0 else cross;
    var kbSq := sumWsSq + rho * clamped;
    if kbSq < 0.0 then 0.0 else kbSq
  }

  function KbSq(ws: seq<real>, rho: real): real { KernelSq(Total(ws), TotalSq(ws), rho) }

  lemma TotalSqNonNegative(ws: seq<real>)
    ensures TotalSq(ws) >= 0.0
  {
    SumByNonNegative(Square, ws);
  }

  /** The kernel is the larger of the uncorrelated figure and the standard's double sum. */
  lemma KernelIsMaxOfStandardAndUncorrelated(ws: seq<real>, rho: real)
    requires 0.0 <= rho <= 1.0
    ensures KbSq(ws, rho) == Max(TotalSq(ws), DoubleSum(ws, rho))
    ensures KbSq(ws, rho) >= DoubleSum(ws, rho)
  {
    TotalSqNonNegative(ws);
    DoubleSumClosed(ws, rho);
    SignOfProduct(rho, Total(ws) * Total(ws) - TotalSq(ws));
  }

  /** For any correlation, also a negative one: the double sum unless its cross terms are negative; never below zero. */
  lemma KernelForAnyRho(ws: seq<real>, rho: real)
    ensures KbSq(ws, rho) == Max(0.0, if Total(ws) * Total(ws) < TotalSq(ws) then TotalSq(ws) else DoubleSum(ws, rho))
  {
    DoubleSumClosed(ws, rho);
  }

  lemma SignOfProduct(a: real, b: real)
    requires a >= 0.0
    ensures b >= 0.0 ==> a * b >= 0.0
    ensures b <= 0.0 ==> a * b <= 0.0
    ensures b != 0.0 && a > 0.0 ==> a * b != 0.0
  {
  }

  /** Exactly when the clamp of the cross term leaves the standard's figure alone. */
  lemma KernelMeetsStandardExactly(ws: seq<real>, rho: real)
    requires 0.0 <= rho <= 1.0
    ensures KbSq(ws, rho) == DoubleSum(ws, rho) <==> rho == 0.0 || Total(ws) * Total(ws) >= TotalSq(ws)
  {
    TotalSqNonNegative(ws);
    DoubleSumClosed(ws, rho);
    SignOfProduct(rho, Total(ws) * Total(ws) - TotalSq(ws));
  }

  lemma KernelBounds(ws: seq<real>, rho: real)
    requires 0.0 <= rho <= 1.0
    ensures rho * (Total(ws) * Total(ws)) <= KbSq(ws, rho) <= Max(Total(ws) * Total(ws), TotalSq(ws))
  {
    var s2, q := Total(ws) * Total(ws), TotalSq(ws);
    TotalSqNonNegative(ws);
    if s2 >= q {
      Distribute(rho, s2 - q, q);
      SignOfProduct(1.0 - rho, q);
      SignOfProduct(1.0 - rho, s2 - q);
      SignOfProduct(rho, s2 - q);
    } else {
      SignOfProduct(1.0 - rho, s2);
    }
  }

  // ------------------------------------------------------------ rows to kernel

  datatype RiskValue = Scalar(v: real) | Vector(vs: seq<real>) | NoValue

  datatype Row = Row(sensitivityType: string, riskValue: RiskValue)

  datatype Bucket = Bucket(k: real, s: real, count: nat)

  /** The sensitivity a row contributes: a number, the first element of a list, or nothing. */
  function ScalarOf(row: Row, sensitivityType: string): Option<real> {
    if row.sensitivityType != sensitivityType then None
    else match row.riskValue
      case Scalar(v) => Some(v)
      case Vector(vs) => if |vs| > 0 then Some(vs[0]) else None
      case NoValue => None
  }

  function WeightedOf(row: Row, weight: real, sensitivityType: string): seq<real> {
    match ScalarOf(row, sensitivityType)
    case Some(s) => [weight * s]
    case None => []
  }

  function WeightedScalars(rows: seq<Row>, weight: real, sensitivityType: string): seq<real> {
    if rows == [] then [] else
      WeightedScalars(rows[..|rows| - 1], weight, sensitivityType)
      + WeightedOf(rows[|rows| - 1], weight, sensitivityType)
  }

  lemma WeightedScalarsStep(rows: seq<Row>, i: nat, weight: real, sensitivityType: string)
    requires i < |rows|
    ensures var before, more := WeightedScalars(rows[..i], weight, sensitivityType),
            WeightedOf(rows[i], weight, sensitivityType);
            var after := WeightedScalars(rows[..i + 1], weight, sensitivityType);
            && |after| == |before| + |more|
            && Total(after) == Total(before) + (if more == [] then 0.0 else more[0])
            && TotalSq(after) == TotalSq(before) + (if more == [] then 0.0 else more[0] * more[0])
  {
    var before, more := WeightedScalars(rows[..i], weight, sensitivityType),
        WeightedOf(rows[i], weight, sensitivityType);
    assert rows[..i + 1][..i] == rows[..i];
    SumByAppend(Identity, before, more);
    SumByAppend(Square, before, more);
  }

  /** One pass over the rows of a bucket, keeping only three running figures. */
  method ComputeKbScalar(rows: seq<Row>, weight: real, rho: real, sensitivityType: string, root: real -> real)
    returns (b: Bucket)
    ensures b.count == |WeightedScalars(rows, weight, sensitivityType)|
    ensures b.s == Total(WeightedScalars(rows, weight, sensitivityType))
    ensures b.count == 0 ==> b.k == 0.0
    ensures b.count > 0 ==> b.k == root(KbSq(WeightedScalars(rows, weight, sensitivityType), rho))
  {
    var sumWs, sumWsSq, count := 0.0, 0.0, 0;
    for i := 0 to |rows|
      invariant count == |WeightedScalars(rows[..i], weight, sensitivityType)|
      invariant sumWs == Total(WeightedScalars(rows[..i], weight, sensitivityType))
      invariant sumWsSq == TotalSq(WeightedScalars(rows[..i], weight, sensitivityType))
    {
      WeightedScalarsStep(rows, i, weight, sensitivityType);
      var s := ScalarOf(rows[i], sensitivityType);
      if s.Some? {
        var ws := weight * s.value;
        sumWs := sumWs + ws;
        sumWsSq := sumWsSq + ws * ws;
        count := count + 1;
      }
    }
    assert rows[..|rows|] == rows;
    if count == 0 { return Bucket(0.0, 0.0, 0); }
    b := Bucket(root(KernelSq(sumWs, sumWsSq, rho)), sumWs, count);
  }

  /** The numbers that count, in row order: those of the type, and the first of a list. */
  function CountedScalars(rows: seq<Row>, sensitivityType: string): seq<real> {
    if rows == [] then []
    else
      var last := rows[|rows| - 1];
      CountedScalars(rows[..|rows| - 1], sensitivityType)
      + if last.sensitivityType != sensitivityType then []
        else if last.riskValue.Scalar? then [last.riskValue.v]
        else if last.riskValue.Vector? && last.riskValue.vs != [] then [last.riskValue.vs[0]]
        else []
  }

  /** Each of them is weighed once. */
  lemma {:induction false} WeighedOnce(rows: seq<Row>, weight: real, sensitivityType: string)
    ensures var ws, numbers := WeightedScalars(rows, weight, sensitivityType), CountedScalars(rows, sensitivityType);
            |ws| == |numbers| && forall i | 0 <= i < |ws| :: ws[i] == weight * numbers[i]
  {
    if rows != [] {
      WeighedOnce(rows[..|rows| - 1], weight, sensitivityType);
    }
  }

  /** A bucket that the kernel could have produced from some weighted sensitivities. */
  ghost predicate FromKernel(b: Bucket, ws: seq<real>, rho: real) {
    b.s == Total(ws) && b.k >= 0.0 && b.k * b.k == KbSq(ws, rho)
  }

  lemma KernelNonNegative(ws: seq<real>, rho: real)
    ensures KbSq(ws, rho) >= 0.0
  {
  }

  /** What the loop returns is a kernel bucket, the empty bucket included. */
  lemma ComputedBucketIsFromKernel(ws: seq<real>, rho: real, root: real -> real, b: Bucket)
    requires IsRoot(root)
    requires b.s == Total(ws) && b.count == |ws|
    requires b.k == if b.count == 0 then 0.0 else root(KbSq(ws, rho))
    ensures FromKernel(b, ws, rho)
  {
    KernelNonNegative(ws, rho);
    if ws == [] {
      assert KbSq(ws, rho) == 0.0;
    }
  }

  // ------------------------------------------------------------ the cross-bucket reduce

  function SOf(b: Bucket): real { b.s }

  function SSquaredOf(b: Bucket): real { b.s * b.s }

  function KSquaredOf(b: Bucket): real { b.k * b.k }

  /** sum K_b^2 + gamma * (sum over b != c of S_b * S_c), as the code groups it. */
  function Interior(per: seq<Bucket>, gamma: real): real {
    InteriorOf(SumBy(KSquaredOf, per), SumBy(SOf, per), SumBy(SSquaredOf, per), gamma)
  }

  function InteriorOf(sumK2: real, sumS: real, sumS2: real, gamma: real): real {
    sumK2 + gamma * (sumS * sumS - sumS2)
  }

  function CrossBucket(gamma: real): (Bucket, Bucket) -> real { (b: Bucket, c: Bucket) => gamma * b.s * c.s }

  /** The grouped form is the standard's double sum over pairs of distinct buckets. */
  lemma InteriorIsDoubleSum(per: seq<Bucket>, gamma: real)
    ensures Interior(per, gamma) == SumBy(KSquaredOf, per) + OffDiagonal(CrossBucket(gamma), per)
  {
    OffDiagonalProduct(CrossBucket(gamma), gamma, SOf, SSquaredOf, per);
  }

  function Clip(b: Bucket): Bucket {
    b.(s := if b.s < -b.k then -b.k else if b.s > b.k then b.k else b.s)
  }

  function ClipAll(per: seq<Bucket>): seq<Bucket> {
    seq(|per|, i requires 0 <= i < |per| => Clip(per[i]))
  }

  /** The charge before the final square root, fallback and floor included. */
  function ChargeSq(per: seq<Bucket>, gamma: real): real {
    if per == [] then 0.0
    else
      var total := Interior(per, gamma);
      if total >= 0.0 then total
      else
        var alt := Interior(ClipAll(per), gamma);
        if alt > 0.0 then alt else 0.0
  }

  function ReduceCharge(per: seq<Bucket>, gamma: real, root: real -> real): real {
    if per == [] then 0.0 else root(ChargeSq(per, gamma))
  }

  /** The buckets with each sum cut to the range of its K_b. */
  function CutSums(per: seq<Bucket>): seq<Bucket> {
    seq(|per|, i requires 0 <= i < |per| =>
      Bucket(per[i].k, if per[i].s > per[i].k then per[i].k else if per[i].s < -per[i].k then -per[i].k else per[i].s,
             per[i].count))
  }

  /** The sum of K_b squared and gamma times the product of every two different buckets' sums. */
  function PairSum(per: seq<Bucket>, gamma: real): real {
    SumBy((b: Bucket) => b.k * b.k, per) + OffDiagonal((b: Bucket, c: Bucket) => gamma * b.s * c.s, per)
  }

  /** What the charge squares to: the pair sum, or that of the cut sums where it is negative, or nothing. */
  lemma ChargeExactly(per: seq<Bucket>, gamma: real, root: real -> real)
    requires IsRoot(root) && forall b | b in per :: b.k >= 0.0
    ensures var charge := ReduceCharge(per, gamma, root);
            charge >= 0.0
            && charge * charge == if PairSum(per, gamma) >= 0.0 then PairSum(per, gamma)
                                  else Max(0.0, PairSum(CutSums(per), gamma))
  {
    PairSumIs(per, gamma);
    PairSumIs(CutSums(per), gamma);
    assert ClipAll(per) == CutSums(per);
    ReduceChargeSquares(per, gamma, root);
  }

  lemma PairSumIs(per: seq<Bucket>, gamma: real)
    ensures PairSum(per, gamma) == Interior(per, gamma)
  {
    InteriorIsDoubleSum(per, gamma);
    SumByEqual(KSquaredOf, (b: Bucket) => b.k * b.k, per);
    OffDiagonalSame(CrossBucket(gamma), (b: Bucket, c: Bucket) => gamma * b.s * c.s, per, |per|);
  }

  lemma {:induction false} WeightedSquareNonNegative(gamma: real, x: real)
    requires gamma >= 0.0
    ensures gamma * (x * x) >= 0.0
  {
    assert x * x >= 0.0;
  }

  lemma {:induction false} ScaledSums(per: seq<Bucket>, gamma: real, c: real)
    requires forall b | b in per :: gamma * SSquaredOf(b) <= c * KSquaredOf(b)
    ensures gamma * SumBy(SSquaredOf, per) <= c * SumBy(KSquaredOf, per)
  {
    if per != [] {
      assert per[0] in per;
      ScaledSums(per[1..], gamma, c);
      Distribute(gamma, SSquaredOf(per[0]), SumBy(SSquaredOf, per[1..]));
      Distribute(c, KSquaredOf(per[0]), SumBy(KSquaredOf, per[1..]));
    }
  }

  /** A per-bucket bound gamma * S_b^2 <= c * K_b^2 bounds the whole interior from below. */
  lemma InteriorLowerBound(per: seq<Bucket>, gamma: real, c: real)
    requires gamma >= 0.0
    requires forall b | b in per :: gamma * SSquaredOf(b) <= c * KSquaredOf(b)
    ensures Interior(per, gamma) >= (1.0 - c) * SumBy(KSquaredOf, per)
  {
    ScaledSums(per, gamma, c);
    InteriorFromSums(per, gamma, c);
  }

  lemma InteriorFromSums(per: seq<Bucket>, gamma: real, c: real)
    requires gamma >= 0.0 && gamma * SumBy(SSquaredOf, per) <= c * SumBy(KSquaredOf, per)
    ensures Interior(per, gamma) >= (1.0 - c) * SumBy(KSquaredOf, per)
  {
    InteriorOfLowerBound(SumBy(KSquaredOf, per), SumBy(SOf, per), SumBy(SSquaredOf, per), gamma, c);
  }

  lemma InteriorOfLowerBound(k2: real, s: real, s2: real, gamma: real, c: real)
    requires gamma >= 0.0 && gamma * s2 <= c * k2
    ensures InteriorOf(k2, s, s2, gamma) >= (1.0 - c) * k2
  {
    WeightedSquareNonNegative(gamma, s);
    Distribute(gamma, s * s, -s2);
  }

  lemma KernelBucketBound(b: Bucket, ws: seq<real>, rho: real, gamma: real)
    requires 0.0 <= gamma <= rho <= 1.0 && FromKernel(b, ws, rho)
    ensures gamma * SSquaredOf(b) <= KSquaredOf(b)
  {
    KernelBounds(ws, rho);
    WeightedSquareNonNegative(rho - gamma, b.s);
  }

  /** Kernel buckets never make the interior negative when gamma <= rho. */
  lemma InteriorNonNegative(per: seq<Bucket>, wss: seq<seq<real>>, rho: real, gamma: real)
    requires 0.0 <= gamma <= rho <= 1.0
    requires |wss| == |per| && forall i | 0 <= i < |per| :: FromKernel(per[i], wss[i], rho)
    ensures Interior(per, gamma) >= 0.0
    ensures ChargeSq(per, gamma) == if per == [] then 0.0 else Interior(per, gamma)
  {
    forall b | b in per ensures gamma * SSquaredOf(b) <= 1.0 * KSquaredOf(b) {
      var i :| 0 <= i < |per| && per[i] == b;
      KernelBucketBound(b, wss[i], rho, gamma);
    }
    InteriorLowerBound(per, gamma, 1.0);
  }

  lemma ClipWithinK(b: Bucket)
    requires b.k >= 0.0
    ensures Clip(b).k == b.k && -b.k <= Clip(b).s <= b.k
    ensures SSquaredOf(Clip(b)) <= KSquaredOf(b)
    ensures -b.k <= b.s <= b.k ==> Clip(b) == b
  {
    var s := Clip(b).s;
    assert (b.k - s) * (b.k + s) >= 0.0;
  }

  lemma ClippedBucketBound(b: Bucket, gamma: real)
    requires b.k >= 0.0 && gamma >= 0.0
    ensures gamma * SSquaredOf(Clip(b)) <= gamma * KSquaredOf(Clip(b))
  {
    ClipWithinK(b);
    SignOfProduct(gamma, KSquaredOf(b) - SSquaredOf(Clip(b)));
    Distribute(gamma, KSquaredOf(b), -SSquaredOf(Clip(b)));
  }

  lemma {:induction false} ClipKeepsK(per: seq<Bucket>)
    ensures SumBy(KSquaredOf, ClipAll(per)) == SumBy(KSquaredOf, per)
  {
    if per != [] {
      assert ClipAll(per)[1..] == ClipAll(per[1..]);
      ClipKeepsK(per[1..]);
    }
  }

  lemma ClippedBucketsBounded(per: seq<Bucket>, gamma: real)
    requires gamma >= 0.0
    requires forall b | b in per :: b.k >= 0.0
    ensures forall b | b in ClipAll(per) :: gamma * SSquaredOf(b) <= gamma * KSquaredOf(b)
  {
    var clipped := ClipAll(per);
    forall b | b in clipped ensures gamma * SSquaredOf(b) <= gamma * KSquaredOf(b) {
      var i :| 0 <= i < |clipped| && clipped[i] == b;
      assert per[i] in per;
      ClippedBucketBound(per[i], gamma);
    }
  }

  /** The recomputed interior keeps at least the share 1 - gamma of the sum of K_b^2. */
  lemma ClippedInteriorBound(per: seq<Bucket>, gamma: real)
    requires 0.0 <= gamma <= 1.0
    requires forall b | b in per :: b.k >= 0.0
    ensures Interior(ClipAll(per), gamma) >= (1.0 - gamma) * SumBy(KSquaredOf, per)
  {
    ClippedBucketsBounded(per, gamma);
    InteriorLowerBound(ClipAll(per), gamma, gamma);
    ClipKeepsK(per);
    SameProduct(1.0 - gamma, SumBy(KSquaredOf, ClipAll(per)), SumBy(KSquaredOf, per));
  }

  /** So the final floor at zero never changes the charge. */
  lemma FloorNeverFires(per: seq<Bucket>, gamma: real)
    requires 0.0 <= gamma <= 1.0
    requires forall b | b in per :: b.k >= 0.0
    ensures Interior(ClipAll(per), gamma) >= 0.0
    ensures per != [] && Interior(per, gamma) < 0.0 ==> ChargeSq(per, gamma) == Interior(ClipAll(per), gamma)
  {
    ClippedInteriorBound(per, gamma);
    SumByNonNegative(KSquaredOf, per);
    SignOfProduct(1.0 - gamma, SumBy(KSquaredOf, per));
  }

  /** The squared charge returned is the root's square, and it is never negative. */
  lemma ReduceChargeSquares(per: seq<Bucket>, gamma: real, root: real -> real)
    requires IsRoot(root)
    ensures ReduceCharge(per, gamma, root) >= 0.0
    ensures ReduceCharge(per, gamma, root) * ReduceCharge(per, gamma, root) == ChargeSq(per, gamma)
  {
    assert ChargeSq(per, gamma) >= 0.0;
  }

  // ------------------------------------------------------------ gamma <= rho is necessary

  function Ones(n: nat, x: real): seq<real> { seq(n, i => x) }

  lemma {:induction false} OnesTotals(n: nat, x: real)
    ensures Total(Ones(n, x)) == n as real * x
    ensures TotalSq(Ones(n, x)) == n as real * (x * x)
  {
    if n > 0 {
      assert Ones(n, x)[1..] == Ones(n - 1, x);
      OnesTotals(n - 1, x);
      assert n as real == (n - 1) as real + 1.0;
    }
  }

  lemma OnesKernel(n: nat, x: real, rho: real)
    requires 0.0 <= rho && x * x == 1.0 && n >= 1
    ensures KbSq(Ones(n, x), rho) == n as real + rho * (n as real * n as real - n as real)
  {
    var m := n as real;
    OnesTotals(n, x);
    assert (m * x) * (m * x) == m * m * (x * x) == m * m;
    assert m * m - m == m * (m - 1.0) >= 0.0;
    SignOfProduct(rho, m * m - m);
  }

  lemma PickLargeN(a: real, d: real) returns (n: nat)
    requires a >= 0.0 && d > 0.0
    ensures n >= 1 && n as real * d > a
  {
    n := (a / d).Floor + 1;
    assert n as real > a / d;
    assert n as real * d > a / d * d == a;
  }

  lemma TwoBucketInterior(k: real, kSq: real, m: real, n: nat, gamma: real)
    requires k * k == kSq
    ensures Interior([Bucket(k, m, n), Bucket(k, -m, n)], gamma) == 2.0 * (kSq - gamma * (m * m))
  {
    var short := Bucket(k, -m, n);
    var per := [Bucket(k, m, n), short];
    assert per[1..] == [short];
    assert SumBy(KSquaredOf, [short]) == kSq;
    assert SumBy(SOf, [short]) == -m;
    assert SumBy(SSquaredOf, [short]) == m * m;
    assert SumBy(SOf, per) == 0.0;
  }

  lemma LargePositionsLose(m: real, kSq: real, rho: real, gamma: real)
    requires m > 0.0 && m * (gamma - rho) > 1.0 - rho
    requires kSq == m + rho * (m * m - m)
    ensures kSq - gamma * (m * m) < 0.0
  {
    var gap := (1.0 - rho) - m * (gamma - rho);
    assert m * gap < 0.0;
    assert m * gap == kSq - gamma * (m * m);
  }

  /** If gamma exceeds rho, n long positions against n short ones drive the interior below zero. */
  lemma NegativeInteriorReachable(rho: real, gamma: real, root: real -> real)
    returns (per: seq<Bucket>, wss: seq<seq<real>>)
    requires 0.0 <= rho < gamma <= 1.0 && IsRoot(root)
    ensures |wss| == |per| && forall i | 0 <= i < |per| :: FromKernel(per[i], wss[i], rho)
    ensures Interior(per, gamma) < 0.0
  {
    var n := PickLargeN(1.0 - rho, gamma - rho);
    var k := OnesRoot(n, rho, root);
    per, wss := [Bucket(k, n as real, n), Bucket(k, -(n as real), n)], [Ones(n, 1.0), Ones(n, -1.0)];
    LongShortInterior(k, n as real, n, rho, gamma);
  }

  /** The kernel figure of n unit positions, long or short. */
  lemma OnesRoot(n: nat, rho: real, root: real -> real) returns (k: real)
    requires 0.0 <= rho && n >= 1 && IsRoot(root)
    ensures k * k == n as real + rho * (n as real * n as real - n as real)
    ensures FromKernel(Bucket(k, n as real, n), Ones(n, 1.0), rho)
            && FromKernel(Bucket(k, -(n as real), n), Ones(n, -1.0), rho)
  {
    KernelNonNegative(Ones(n, 1.0), rho);
    k := root(KbSq(Ones(n, 1.0), rho));
    OnesFromKernel(k, n, 1.0, rho);
    OnesFromKernel(k, n, -1.0, rho);
    OnesKernel(n, 1.0, rho);
    Negated(n as real);
  }

  lemma Negated(m: real)
    ensures m * 1.0 == m && m * -1.0 == -m
  {
  }

  lemma LongShortInterior(k: real, m: real, n: nat, rho: real, gamma: real)
    requires m > 0.0 && k * k == m + rho * (m * m - m)
    requires m * (gamma - rho) > 1.0 - rho
    ensures Interior([Bucket(k, m, n), Bucket(k, -m, n)], gamma) < 0.0
  {
    TwoBucketInterior(k, k * k, m, n, gamma);
    LargePositionsLose(m, k * k, rho, gamma);
  }

  lemma OnesFromKernel(k: real, n: nat, x: real, rho: real)
    requires 0.0 <= rho && n >= 1 && (x == 1.0 || x == -1.0)
    requires k >= 0.0 && k * k == KbSq(Ones(n, 1.0), rho)
    ensures FromKernel(Bucket(k, n as real * x, n), Ones(n, x), rho)
  {
    OnesTotals(n, x);
    OnesKernel(n, 1.0, rho);
    OnesKernel(n, x, rho);
  }

  ghost predicate BranchUnreachable(rho: real, gamma: real) {
    forall per: seq<Bucket>, wss: seq<seq<real>> ::
      |wss| == |per| && (forall i | 0 <= i < |per| :: FromKernel(per[i], wss[i], rho)) ==> Interior(per, gamma) >= 0.0
  }

  /** Over all portfolios, the clip-and-recompute branch is dead code exactly when gamma <= rho. */
  lemma FallbackDeadIffGammaAtMostRho(rho: real, gamma: real, root: real -> real)
    requires 0.0 <= rho <= 1.0 && 0.0 <= gamma <= 1.0 && IsRoot(root)
    ensures BranchUnreachable(rho, gamma) <==> gamma <= rho
  {
    if gamma <= rho {
      forall per: seq<Bucket>, wss: seq<seq<real>> |
        |wss| == |per| && (forall i | 0 <= i < |per| :: FromKernel(per[i], wss[i], rho))
        ensures Interior(per, gamma) >= 0.0
      {
        InteriorNonNegative(per, wss, rho, gamma);
      }
    } else {
      var per, wss := NegativeInteriorReachable(rho, gamma, root);
    }
  }
}
