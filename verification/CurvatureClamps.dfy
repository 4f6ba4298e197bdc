/**
 The two clamps of the curvature charge: the one under the root of K_b and the floor after the
 fallback. For which correlations can they fire at all?
 */
module CurvatureClamps {
  import opened Sums
  import opened Curvature
  import SbmDelta

  function Alike<T>(n: nat, x: T): seq<T> { seq(n, _ => x) }

  lemma {:induction false} SumOfAlike<T>(f: T -> real, n: nat, x: T)
    ensures SumBy(f, Alike(n, x)) == n as real * f(x)
  {
    if n > 0 {
      SumOfAlike(f, n - 1, x);
      assert Alike(n, x)[1..] == Alike(n - 1, x);
    }
  }

  lemma SumOfOneAndAlike<T>(f: T -> real, y: T, n: nat, x: T)
    ensures SumBy(f, [y] + Alike(n, x)) == f(y) + n as real * f(x)
  {
    SumOfAlike(f, n, x);
    assert ([y] + Alike(n, x))[1..] == Alike(n, x);
  }

  lemma PositiveProduct(a: real, b: real, p: real)
    requires a > 0.0 && b > 0.0 && p == a * b
    ensures p > 0.0
  {
  }

  /** The totals of one long of size a, which is c times m, against m unit shorts. */
  lemma LongAgainstShorts(c: real, m: real, a: real)
    requires a == c * m
    ensures FromTotals(c, a - m, a * a + m, -m, m) == m - a * a
  {
    Expanded(a, m);
    var wide, narrow := (a - m) * (a - m) - (a * a + m), (-m) * (-m) - m;
    assert wide - narrow == -2.0 * (a * m);
    Apart(c, wide, narrow);
    assert c * (wide - narrow) == -2.0 * (a * a) by { Associate(c, a, m); }
  }

  lemma Expanded(a: real, m: real)
    ensures (a - m) * (a - m) == a * a - 2.0 * (a * m) + m * m && (-m) * (-m) == m * m
  {
  }

  lemma Apart(c: real, a: real, b: real)
    ensures c * a - c * b == c * (a - b)
  {
  }

  /** They are negative once m is large. */
  lemma ShortsWin(c: real, d: real, m: real, a: real, p: real)
    requires c > 0.0 && m > 0.0 && p == m * d && p > 1.0 && d == c * c && a == c * m
    ensures a >= 0.0 && m - a * a < 0.0
  {
    PositiveProduct(c, m, a);
    assert a * a == m * p by { SquareOfProduct(c, m, a); }
    PositiveProduct(m, p - 1.0, m * (p - 1.0));
  }

  lemma SquareOfProduct(c: real, m: real, a: real)
    requires a == c * m
    ensures a * a == m * (m * (c * c))
  {
  }

  lemma Units(m: real)
    ensures m * -1.0 == -m && m * 1.0 == m && m * 0.0 == 0.0
  {
  }

  /** The totals of unit longs: negative for a negative correlation and enough of them. */
  lemma LongsLose(c: real, n: real, x: real, p: real)
    requires p == n * -c && p > 1.0 && n > 0.0 && x == n + 1.0
    ensures FromTotals(c, x, x, 0.0, 0.0) < 0.0
  {
    assert c * (x * x - x) == -(x * p) by { TimesBoth(c, n, x, p); }
    PositiveProduct(x, p - 1.0, x * (p - 1.0));
  }

  lemma TimesBoth(c: real, n: real, x: real, p: real)
    requires p == n * -c && x == n + 1.0
    ensures c * (x * x - x) == -(x * p)
  {
    assert x * x - x == x * n;
  }

  // ------------------------------------------------------------ the clamp under the root

  lemma LongShortKb(rho: real, m: nat, long: real)
    requires long == rho * m as real && long >= 0.0
    ensures KbSquared([long] + Alike(m, -1.0), rho) == m as real - long * long
  {
    var x := m as real;
    var cvr := [long] + Alike(m, -1.0);
    KbSquaredByTotals(cvr, rho);
    Units(x);
    assert SumBy(Identity, cvr) == long - x by { SumOfOneAndAlike(Identity, long, m, -1.0); }
    assert SumBy(Square, cvr) == long * long + x by { SumOfOneAndAlike(Square, long, m, -1.0); }
    assert SumBy(Negative, cvr) == -x by { SumOfOneAndAlike(Negative, long, m, -1.0); }
    assert SumBy(NegativeSq, cvr) == x by { SumOfOneAndAlike(NegativeSq, long, m, -1.0); }
    LongAgainstShorts(rho, x, long);
  }

  lemma LongsKb(rho: real, m: nat)
    ensures var x := m as real; KbSquared(Alike(m, 1.0), rho) == FromTotals(rho, x, x, 0.0, 0.0)
  {
    var x := m as real;
    KbSquaredByTotals(Alike(m, 1.0), rho);
    Units(x);
    SumOfAlike(Identity, m, 1.0);
    SumOfAlike(Square, m, 1.0);
    SumOfAlike(Negative, m, 1.0);
    SumOfAlike(NegativeSq, m, 1.0);
  }

  lemma AboveOne(x: real, d: real, e: real, p: real)
    requires x > e && d > 0.0 && e * d == 1.0 && p == x * d
    ensures p > 1.0
  {
    PositiveProduct(x - e, d, (x - e) * d);
  }

  lemma Enough(d: real) returns (m: nat, x: real, p: real)
    requires d > 0.0
    ensures x == m as real && x >= 1.0 && p == x * d && p > 1.0
  {
    var e := 1.0 / d;
    m := e.Floor + 1;
    x := m as real;
    p := x * d;
    AboveOne(x, d, e, p);
  }

  /** How many shorts, or longs, it takes, and the size of the long. */
  lemma EnoughShorts(c: real) returns (m: nat, x: real, long: real)
    requires c > 0.0
    ensures x == m as real && long == c * x && long >= 0.0 && x - long * long < 0.0
  {
    var d, p := c * c, 0.0;
    PositiveProduct(c, c, d);
    m, x, p := Enough(d);
    long := c * x;
    ShortsWin(c, d, x, long, p);
  }

  lemma EnoughLongs(c: real) returns (m: nat, x: real)
    requires c < 0.0
    ensures x == m as real && FromTotals(c, x, x, 0.0, 0.0) < 0.0
  {
    var n, y, p := Enough(-c);
    m, x := n + 1, y + 1.0;
    LongsLose(c, y, x, p);
  }

  /** For negative correlations unit longs are enough, for positive ones a long against shorts. */
  lemma NegativeKb(rho: real) returns (cvr: seq<real>)
    requires rho != 0.0
    ensures KbSquared(cvr, rho) < 0.0
  {
    if rho > 0.0 {
      var m, x, long := EnoughShorts(rho);
      LongShortKb(rho, m, long);
      cvr := [long] + Alike(m, -1.0);
    } else {
      var m, x := EnoughLongs(rho);
      LongsKb(rho, m);
      cvr := Alike(m, 1.0);
    }
  }

  /** Unlike the Delta kernel's, the clamp under the root is live for every correlation but zero. */
  lemma ClampDeadExactly(rho: real)
    ensures (forall cvr :: KbSquared(cvr, rho) >= 0.0) <==> rho == 0.0
  {
    if rho == 0.0 {
      forall cvr ensures KbSquared(cvr, rho) >= 0.0 {
        KbSquaredByTotals(cvr, rho);
        SumByNonNegative(Square, cvr);
      }
    } else {
      var cvr := NegativeKb(rho);
    }
  }

  /** At full correlation one long of two against three unit shorts will do. */
  lemma ClampIsLive()
    ensures KbSquared([2.0] + Alike(3, -1.0), 1.0) == -5.0
  {
    KbSquaredByTotals([2.0] + Alike(3, -1.0), 1.0);
    SumOfOneAndAlike(Identity, 2.0, 3, -1.0);
    SumOfOneAndAlike(Square, 2.0, 3, -1.0);
    SumOfOneAndAlike(Negative, 2.0, 3, -1.0);
    SumOfOneAndAlike(NegativeSq, 2.0, 3, -1.0);
  }

  // ------------------------------------------------------------ the floor after the fallback

  /** A bucket as the resolution of some up and down values. */
  ghost predicate IsResolved(p: BucketCurvature, rho: real, root: real -> real) {
    exists up, down :: p == ResolveBucket(p.bucket, up, down, rho, p.count, root)
  }

  ghost predicate AllResolved(per: seq<BucketCurvature>, rho: real, root: real -> real) {
    forall i | 0 <= i < |per| :: IsResolved(per[i], rho, root)
  }

  /** The interior is negative, and so it is after clipping. */
  predicate FloorFires(per: seq<BucketCurvature>, gamma: GammaSpec) {
    Interior(per, gamma) < 0.0 && Interior(ClipAll(per), gamma) < 0.0
  }

  /** A bucket with one factor, the same in both directions. */
  function Lone(s: real, rho: real, root: real -> real): BucketCurvature {
    ResolveBucket("b", [s], [s], rho, 1, root)
  }

  lemma LoneKb(s: real, rho: real)
    ensures KbSquared([s], rho) == s * s
  {
    KbSquaredByTotals([s], rho);
    assert SumBy(NegativeSq, [s]) == SumBy(Negative, [s]) * SumBy(Negative, [s]);
    Units(rho);
  }

  lemma RootOfSquare(r: real, s: real)
    requires r >= 0.0 && r * r == s * s
    ensures r == Max(s, -s)
  {
    RootsCompare(r, Max(s, -s));
  }

  /** A bucket the resolution returns with nothing to clip. */
  ghost predicate Plain(p: BucketCurvature, rho: real, root: real -> real) {
    IsResolved(p, rho, root) && Clip(p) == p && KSquared(p) == p.sB * p.sB
  }

  lemma LoneFigures(s: real, rho: real, root: real -> real)
    requires SbmDelta.IsRoot(root)
    ensures var p := Lone(s, rho, root);
            Plain(p, rho, root) && p.sB == s && p.kB == Max(s, -s)
  {
    var p := Lone(s, rho, root);
    LoneKb(s, rho);
    assert s * s >= 0.0;
    assert p.kB == root(s * s) && SumBy(Identity, [s]) == s;
    RootOfSquare(p.kB, s);
    assert p == ResolveBucket(p.bucket, [s], [s], rho, p.count, root);
  }

  lemma LongShortBucketsInterior(p: BucketCurvature, q: BucketCurvature, g: real, m: nat)
    requires p.sB == g * m as real && p.sB >= 0.0 && KSquared(p) == p.sB * p.sB && q.sB == -1.0 && KSquared(q) == 1.0
    ensures Interior([p] + Alike(m, q), Constant(g)) == m as real - p.sB * p.sB
  {
    var x, per := m as real, [p] + Alike(m, q);
    InteriorClosed(per, g);
    Units(x);
    assert SumBy(KSquared, per) == p.sB * p.sB + x by { SumOfOneAndAlike(KSquared, p, m, q); }
    assert SumBy(Held, per) == p.sB - x by { SumOfOneAndAlike(Held, p, m, q); }
    assert SumBy(HeldSq, per) == p.sB * p.sB + x by { SumOfOneAndAlike(HeldSq, p, m, q); }
    assert SumBy(HeldNegative, per) == -x by { SumOfOneAndAlike(HeldNegative, p, m, q); }
    assert SumBy(HeldNegativeSq, per) == x by { SumOfOneAndAlike(HeldNegativeSq, p, m, q); }
    LongAgainstShorts(g, x, p.sB);
  }

  lemma LongBucketsInterior(p: BucketCurvature, g: real, m: nat)
    requires p.sB == 1.0 && KSquared(p) == 1.0
    ensures var x := m as real; Interior(Alike(m, p), Constant(g)) == FromTotals(g, x, x, 0.0, 0.0)
  {
    var x, per := m as real, Alike(m, p);
    InteriorClosed(per, g);
    Units(x);
    assert SumBy(KSquared, per) == x by { SumOfAlike(KSquared, m, p); }
    assert SumBy(Held, per) == x by { SumOfAlike(Held, m, p); }
    assert SumBy(HeldSq, per) == x by { SumOfAlike(HeldSq, m, p); }
    assert SumBy(HeldNegative, per) == 0.0 by { SumOfAlike(HeldNegative, m, p); }
    assert SumBy(HeldNegativeSq, per) == 0.0 by { SumOfAlike(HeldNegativeSq, m, p); }
  }

  lemma ClippedAlready(per: seq<BucketCurvature>)
    requires forall p | p in per :: Clip(p) == p
    ensures ClipAll(per) == per
  {
  }

  lemma PlainBuckets(per: seq<BucketCurvature>, rho: real, root: real -> real)
    requires forall p | p in per :: Plain(p, rho, root)
    ensures AllResolved(per, rho, root) && ClipAll(per) == per
  {
    ClippedAlready(per);
  }

  lemma FiringLongShort(p: BucketCurvature, q: BucketCurvature, g: real, m: nat, x: real, rho: real, root: real -> real)
    returns (per: seq<BucketCurvature>)
    requires Plain(p, rho, root) && Plain(q, rho, root) && q.sB == -1.0
    requires x == m as real && p.sB == g * x && p.sB >= 0.0 && x - p.sB * p.sB < 0.0
    ensures AllResolved(per, rho, root) && ClipAll(per) == per && Interior(per, Constant(g)) < 0.0
  {
    per := [p] + Alike(m, q);
    LongShortBucketsInterior(p, q, g, m);
    PlainBuckets(per, rho, root);
  }

  lemma FiringLongs(p: BucketCurvature, g: real, m: nat, x: real, rho: real, root: real -> real)
    returns (per: seq<BucketCurvature>)
    requires Plain(p, rho, root) && p.sB == 1.0 && x == m as real && FromTotals(g, x, x, 0.0, 0.0) < 0.0
    ensures AllResolved(per, rho, root) && ClipAll(per) == per && Interior(per, Constant(g)) < 0.0
  {
    per := Alike(m, p);
    LongBucketsInterior(p, g, m);
    PlainBuckets(per, rho, root);
  }

  /** The vectors of NegativeKb again, one bucket for each entry. */
  lemma FiringBuckets(g: real, rho: real, root: real -> real) returns (per: seq<BucketCurvature>)
    requires g != 0.0 && SbmDelta.IsRoot(root)
    ensures AllResolved(per, rho, root) && ClipAll(per) == per && Interior(per, Constant(g)) < 0.0
  {
    if g > 0.0 {
      var m, x, long := EnoughShorts(g);
      var p, q := Lone(long, rho, root), Lone(-1.0, rho, root);
      LoneFigures(long, rho, root);
      LoneFigures(-1.0, rho, root);
      per := FiringLongShort(p, q, g, m, x, rho, root);
    } else {
      var m, x := EnoughLongs(g);
      LoneFigures(1.0, rho, root);
      per := FiringLongs(Lone(1.0, rho, root), g, m, x, rho, root);
    }
  }

  /**
   The Delta argument that the last floor is idle fails here: over the buckets the resolution can return, the floor
   never fires iff gamma is zero.
   */
  lemma FloorDeadExactly(g: real, rho: real, root: real -> real)
    requires SbmDelta.IsRoot(root)
    ensures (forall per | AllResolved(per, rho, root) :: !FloorFires(per, Constant(g))) <==> g == 0.0
  {
    if g == 0.0 {
      forall per | AllResolved(per, rho, root) ensures !FloorFires(per, Constant(g)) {
        InteriorClosed(per, g);
        forall p | p in per ensures KSquared(p) >= 0.0 {}
        SumByNonNegative(KSquared, per);
      }
    } else {
      var per := FiringBuckets(g, rho, root);
      assert FloorFires(per, Constant(g));
    }
  }

  /** For every other gamma some buckets are charged nothing, by the fallback. */
  lemma FloorIsLive(g: real, rho: real, root: real -> real) returns (per: seq<BucketCurvature>)
    requires g != 0.0 && SbmDelta.IsRoot(root)
    ensures AllResolved(per, rho, root) && per != []
    ensures Interior(per, Constant(g)) < 0.0 && Aggregate(per, Constant(g), root) == Charge(root(0.0), true)
  {
    per := FiringBuckets(g, rho, root);
    if per == [] {
      InteriorClosed(per, g);
      assert false;
    }
  }
}
