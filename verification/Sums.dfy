/**
 Sums of reals over sequences and finite maps.

 Every total in the system (a rollup field, a weighted-sensitivity sum, the rows a
 dispatcher still owes) is one of these two sums, so the facts below are what lets a
 running accumulator be compared with a recomputation.
 */
module Sums {

  function Identity(x: real): real { x }

  function Square(x: real): real { x * x }

  function Max(a: real, b: real): real { if a >= b then a else b }

  function Min(a: real, b: real): real { if a <= b then a else b }

  function MaxInt(a: int, b: int): int { if a >= b then a else b }

  function MinInt(a: int, b: int): int { if a <= b then a else b }

  /** An even split, the first `total % n` shares one larger. */
  function EvenShare(total: nat, n: nat, i: nat): int
    requires n > 0
  {
    total / n + if i < total % n then 1 else 0
  }

  function SumBy<T>(f: T -> real, xs: seq<T>): real {
    if xs == [] then 0.0 else f(xs[0]) + SumBy(f, xs[1..])
  }

  lemma {:induction false} SumByAppend<T>(f: T -> real, xs: seq<T>, ys: seq<T>)
    ensures SumBy(f, xs + ys) == SumBy(f, xs) + SumBy(f, ys)
  {
    if xs == [] {
      assert xs + ys == ys;
    } else {
      assert (xs + ys)[1..] == xs[1..] + ys;
      SumByAppend(f, xs[1..], ys);
    }
  }

  lemma SumBySnoc<T>(f: T -> real, xs: seq<T>, x: T)
    ensures SumBy(f, xs + [x]) == SumBy(f, xs) + f(x)
  {
    SumByAppend(f, xs, [x]);
  }

  lemma SumByInsert<T>(f: T -> real, before: seq<T>, x: T, after: seq<T>)
    ensures SumBy(f, before + [x] + after) == f(x) + SumBy(f, before + after)
  {
    SumByAppend(f, before + [x], after);
    SumBySnoc(f, before, x);
    SumByAppend(f, before, after);
  }

  lemma SplitAt<T>(xs: seq<T>, i: nat)
    requires i < |xs|
    ensures xs == xs[..i] + [xs[i]] + xs[i + 1..]
  {
  }

  /** Taking the element at `i` out of a sequence takes its term out of the sum. */
  lemma SumByRemove<T>(f: T -> real, xs: seq<T>, i: nat)
    requires i < |xs|
    ensures SumBy(f, xs) == f(xs[i]) + SumBy(f, xs[..i] + xs[i + 1..])
  {
    SplitAt(xs, i);
    SumByInsert(f, xs[..i], xs[i], xs[i + 1..]);
  }

  lemma SumByUpdate<T>(f: T -> real, xs: seq<T>, i: nat, x: T)
    requires i < |xs|
    ensures SumBy(f, xs[i := x]) == SumBy(f, xs) - f(xs[i]) + f(x)
  {
    SumByRemove(f, xs, i);
    SumByRemove(f, xs[i := x], i);
    assert xs[i := x][..i] + xs[i := x][i + 1..] == xs[..i] + xs[i + 1..];
  }

  /** In a reordering of xs, the head of xs stands somewhere, and the rest is a reordering of the rest. */
  lemma MatchHead<T>(xs: seq<T>, ys: seq<T>) returns (before: seq<T>, after: seq<T>)
    requires xs != [] && multiset(xs) == multiset(ys)
    ensures ys == before + [xs[0]] + after && multiset(xs[1..]) == multiset(before + after)
  {
    assert xs[0] in multiset(ys);
    var i :| 0 <= i < |ys| && ys[i] == xs[0];
    before, after := ys[..i], ys[i + 1..];
    assert ys == before + [xs[0]] + after;
    assert xs == [] + [xs[0]] + xs[1..] && [] + xs[1..] == xs[1..];
    TakenOut(before, xs[0], after);
    TakenOut([], xs[0], xs[1..]);
  }

  lemma TakenOut<T>(before: seq<T>, x: T, after: seq<T>)
    ensures multiset(before + after) == multiset(before + [x] + after) - multiset{x}
  {
    assert multiset(before + [x] + after) == multiset(before) + multiset{x} + multiset(after);
  }

  /** A sum does not depend on the order of its terms. */
  lemma {:induction false} SumByPermutation<T>(f: T -> real, xs: seq<T>, ys: seq<T>)
    requires multiset(xs) == multiset(ys)
    ensures SumBy(f, xs) == SumBy(f, ys)
    decreases |xs|
  {
    if xs == [] {
      assert |ys| == |multiset(ys)| == 0;
    } else {
      var before, after := MatchHead(xs, ys);
      SumByPermutation(f, xs[1..], before + after);
      SumByInsert(f, before, xs[0], after);
    }
  }

  lemma {:induction false} SumByEqual<T>(f: T -> real, g: T -> real, xs: seq<T>)
    requires forall x | x in xs :: f(x) == g(x)
    ensures SumBy(f, xs) == SumBy(g, xs)
  {
    if xs != [] {
      assert xs[0] in xs;
      SumByEqual(f, g, xs[1..]);
    }
  }

  lemma {:induction false} SumByZero<T>(f: T -> real, xs: seq<T>)
    requires forall x | x in xs :: f(x) == 0.0
    ensures SumBy(f, xs) == 0.0
  {
    if xs != [] {
      assert xs[0] in xs;
      SumByZero(f, xs[1..]);
    }
  }

  lemma {:induction false} SumByNonNegative<T>(f: T -> real, xs: seq<T>)
    requires forall x | x in xs :: f(x) >= 0.0
    ensures SumBy(f, xs) >= 0.0
  {
    if xs != [] {
      assert xs[0] in xs;
      SumByNonNegative(f, xs[1..]);
    }
  }

  lemma {:induction false} SumByScale<T>(h: T -> real, a: real, f: T -> real, xs: seq<T>)
    requires forall x | x in xs :: h(x) == a * f(x)
    ensures SumBy(h, xs) == a * SumBy(f, xs)
  {
    if xs != [] {
      assert xs[0] in xs;
      SumByScale(h, a, f, xs[1..]);
      assert a * SumBy(f, xs) == a * f(xs[0]) + a * SumBy(f, xs[1..]);
    }
  }

  lemma {:induction false} SumByAdd<T>(h: T -> real, f: T -> real, g: T -> real, xs: seq<T>)
    requires forall x | x in xs :: h(x) == f(x) + g(x)
    ensures SumBy(h, xs) == SumBy(f, xs) + SumBy(g, xs)
  {
    if xs != [] {
      assert xs[0] in xs;
      SumByAdd(h, f, g, xs[1..]);
    }
  }

  lemma {:induction false} SumByMonotone<T>(f: T -> real, g: T -> real, xs: seq<T>)
    requires forall x | x in xs :: f(x) <= g(x)
    ensures SumBy(f, xs) <= SumBy(g, xs)
  {
    if xs != [] {
      assert xs[0] in xs;
      SumByMonotone(f, g, xs[1..]);
    }
  }

  // ---------------------------------------------------------------- sums over pairs

  /** Sum of p(xs[k], xs[j]) over the positions j < l other than k. */
  function OffRow<T>(p: (T, T) -> real, xs: seq<T>, k: nat, l: nat): real
    requires k < |xs| && l <= |xs|
  {
    if l == 0 then 0.0
    else OffRow(p, xs, k, l - 1) + (if l - 1 == k then 0.0 else p(xs[k], xs[l - 1]))
  }

  function OffDiagonalTo<T>(p: (T, T) -> real, xs: seq<T>, k: nat): real
    requires k <= |xs|
  {
    if k == 0 then 0.0 else OffDiagonalTo(p, xs, k - 1) + OffRow(p, xs, k - 1, |xs|)
  }

  /** Sum of p over all ordered pairs of distinct positions. */
  function OffDiagonal<T>(p: (T, T) -> real, xs: seq<T>): real { OffDiagonalTo(p, xs, |xs|) }

  function Against<T>(p: (T, T) -> real, a: T): T -> real { b => p(a, b) }

  function Diagonal<T>(p: (T, T) -> real): T -> real { a => p(a, a) }

  function RowTotal<T>(p: (T, T) -> real, xs: seq<T>): T -> real { a => SumBy(Against(p, a), xs) }

  lemma {:induction false} OffRowSame<T>(p: (T, T) -> real, q: (T, T) -> real, xs: seq<T>, k: nat, l: nat)
    requires k < |xs| && l <= |xs| && forall a, b | a in xs && b in xs :: p(a, b) == q(a, b)
    ensures OffRow(p, xs, k, l) == OffRow(q, xs, k, l)
  {
    if l > 0 {
      OffRowSame(p, q, xs, k, l - 1);
      assert xs[k] in xs && xs[l - 1] in xs;
    }
  }

  lemma {:induction false} OffDiagonalSame<T>(p: (T, T) -> real, q: (T, T) -> real, xs: seq<T>, k: nat)
    requires k <= |xs| && forall a, b | a in xs && b in xs :: p(a, b) == q(a, b)
    ensures OffDiagonalTo(p, xs, k) == OffDiagonalTo(q, xs, k)
  {
    if k > 0 {
      OffDiagonalSame(p, q, xs, k - 1);
      OffRowSame(p, q, xs, k - 1, |xs|);
    }
  }

  lemma {:induction false} OffRowClosed<T>(p: (T, T) -> real, xs: seq<T>, k: nat, l: nat)
    requires k < |xs| && l <= |xs|
    ensures OffRow(p, xs, k, l)
         == SumBy(Against(p, xs[k]), xs[..l]) - (if k < l then p(xs[k], xs[k]) else 0.0)
  {
    if l > 0 {
      OffRowClosed(p, xs, k, l - 1);
      assert xs[..l] == xs[..l - 1] + [xs[l - 1]];
      SumBySnoc(Against(p, xs[k]), xs[..l - 1], xs[l - 1]);
    }
  }

  lemma {:induction false} OffDiagonalToClosed<T>(p: (T, T) -> real, xs: seq<T>, k: nat)
    requires k <= |xs|
    ensures OffDiagonalTo(p, xs, k) == SumBy(RowTotal(p, xs), xs[..k]) - SumBy(Diagonal(p), xs[..k])
  {
    if k > 0 {
      OffDiagonalToClosed(p, xs, k - 1);
      OffRowClosed(p, xs, k - 1, |xs|);
      assert xs[..|xs|] == xs;
      assert xs[..k] == xs[..k - 1] + [xs[k - 1]];
      SumBySnoc(RowTotal(p, xs), xs[..k - 1], xs[k - 1]);
      SumBySnoc(Diagonal(p), xs[..k - 1], xs[k - 1]);
    }
  }

  /** Skipping the diagonal inside the loops is subtracting it afterwards. */
  lemma OffDiagonalClosed<T>(p: (T, T) -> real, xs: seq<T>)
    ensures OffDiagonal(p, xs) == SumBy(RowTotal(p, xs), xs) - SumBy(Diagonal(p), xs)
  {
    OffDiagonalToClosed(p, xs, |xs|);
    assert xs[..|xs|] == xs;
  }

  /** A double loop over distinct positions does not depend on the order of the list. */
  lemma OffDiagonalPermutation<T>(p: (T, T) -> real, xs: seq<T>, ys: seq<T>)
    requires multiset(xs) == multiset(ys)
    ensures OffDiagonal(p, xs) == OffDiagonal(p, ys)
  {
    OffDiagonalClosed(p, xs);
    OffDiagonalClosed(p, ys);
    forall a | a in xs ensures RowTotal(p, xs)(a) == RowTotal(p, ys)(a) {
      SumByPermutation(Against(p, a), xs, ys);
    }
    SumByEqual(RowTotal(p, xs), RowTotal(p, ys), xs);
    SumByPermutation(RowTotal(p, ys), xs, ys);
    SumByPermutation(Diagonal(p), xs, ys);
  }

  /** Double sums subtract term by term. */
  lemma {:induction false} OffRowSubtract<T>(p: (T, T) -> real, q: (T, T) -> real, r: (T, T) -> real, xs: seq<T>,
      k: nat, l: nat)
    requires k < |xs| && l <= |xs|
    requires forall a, b | a in xs && b in xs :: p(a, b) == q(a, b) - r(a, b)
    ensures OffRow(p, xs, k, l) == OffRow(q, xs, k, l) - OffRow(r, xs, k, l)
  {
    if l > 0 {
      OffRowSubtract(p, q, r, xs, k, l - 1);
      assert xs[k] in xs && xs[l - 1] in xs;
    }
  }

  lemma {:induction false} OffDiagonalSubtract<T>(p: (T, T) -> real, q: (T, T) -> real, r: (T, T) -> real, xs: seq<T>,
      k: nat)
    requires k <= |xs|
    requires forall a, b | a in xs && b in xs :: p(a, b) == q(a, b) - r(a, b)
    ensures OffDiagonalTo(p, xs, k) == OffDiagonalTo(q, xs, k) - OffDiagonalTo(r, xs, k)
  {
    if k > 0 {
      OffDiagonalSubtract(p, q, r, xs, k - 1);
      OffRowSubtract(p, q, r, xs, k - 1, |xs|);
    }
  }

  ghost predicate IsProduct<T(!new)>(p: (T, T) -> real, c: real, u: T -> real) {
    forall a, b :: p(a, b) == c * u(a) * u(b)
  }

  lemma RowOfProduct<T(!new)>(p: (T, T) -> real, c: real, u: T -> real, xs: seq<T>, a: T)
    requires IsProduct(p, c, u)
    ensures RowTotal(p, xs)(a) == c * u(a) * SumBy(u, xs)
  {
    SumByScale(Against(p, a), c * u(a), u, xs);
  }

  lemma {:induction false} SumOfProductRows<T(!new)>(p: (T, T) -> real, c: real, u: T -> real, xs: seq<T>, ys: seq<T>)
    requires IsProduct(p, c, u)
    ensures SumBy(RowTotal(p, xs), ys) == c * SumBy(u, xs) * SumBy(u, ys)
  {
    if ys != [] {
      RowOfProduct(p, c, u, xs, ys[0]);
      SumOfProductRows(p, c, u, xs, ys[1..]);
      Commute(c, u(ys[0]), SumBy(u, xs));
      Spread(c * SumBy(u, xs), u(ys[0]), SumBy(u, ys[1..]), SumBy(u, ys));
    }
  }

  lemma Spread(a: real, b: real, c: real, d: real)
    requires d == b + c
    ensures a * d == a * b + a * c
  {
  }

  /** If p(a, b) is c * u(a) * u(b), the double sum collapses to two single sums. */
  lemma OffDiagonalProduct<T(!new)>(p: (T, T) -> real, c: real, u: T -> real, uSq: T -> real, xs: seq<T>)
    requires IsProduct(p, c, u)
    requires forall a :: uSq(a) == u(a) * u(a)
    ensures OffDiagonal(p, xs) == c * (SumBy(u, xs) * SumBy(u, xs) - SumBy(uSq, xs))
  {
    OffDiagonalClosed(p, xs);
    SumOfProductRows(p, c, u, xs, xs);
    DiagonalOfProduct(p, c, u, uSq, xs);
    Factor(c, SumBy(u, xs), SumBy(uSq, xs));
  }

  lemma SameForm(c: real, sum: real, sumSq: real, s: real, q: real)
    requires sum == s && sumSq == q
    ensures c * (sum * sum - sumSq) == c * (s * s - q)
  {
  }

  /** The same with the two sums named. */
  lemma OffDiagonalTotals<T(!new)>(p: (T, T) -> real, c: real, u: T -> real, uSq: T -> real, xs: seq<T>, s: real,
      q: real)
    requires IsProduct(p, c, u)
    requires forall a :: uSq(a) == u(a) * u(a)
    requires s == SumBy(u, xs) && q == SumBy(uSq, xs)
    ensures OffDiagonal(p, xs) == c * (s * s - q)
  {
    OffDiagonalProduct(p, c, u, uSq, xs);
    SameForm(c, SumBy(u, xs), SumBy(uSq, xs), s, q);
  }

  lemma DiagonalOfProduct<T(!new)>(p: (T, T) -> real, c: real, u: T -> real, uSq: T -> real, xs: seq<T>)
    requires IsProduct(p, c, u)
    requires forall a :: uSq(a) == u(a) * u(a)
    ensures SumBy(Diagonal(p), xs) == c * SumBy(uSq, xs)
  {
    forall a ensures Diagonal(p)(a) == c * uSq(a) {
      Associate(c, u(a), u(a));
    }
    SumByScale(Diagonal(p), c, uSq, xs);
  }

  function Product<T>(c: real, u: T -> real): (T, T) -> real { (a, b) => c * u(a) * u(b) }

  lemma ProductAt<T>(c: real, u: T -> real, a: T, b: T, x: real, y: real)
    requires u(a) == x && u(b) == y
    ensures Product(c, u)(a, b) == c * x * y
  {
  }

  ghost predicate IsGatedProduct<T(!new)>(p: (T, T) -> real, c: real, u: T -> real, v: T -> real) {
    forall a, b :: p(a, b) == Product(c, u)(a, b) - Product(c, v)(a, b)
  }

  /** Switching off the pairs on which v sees both sides takes v's own double sum away. */
  lemma OffDiagonalGated<T(!new)>(
    p: (T, T) -> real, c: real, u: T -> real, uSq: T -> real, v: T -> real, vSq: T -> real, xs: seq<T>)
    requires IsGatedProduct(p, c, u, v)
    requires forall a :: uSq(a) == u(a) * u(a)
    requires forall a :: vSq(a) == v(a) * v(a)
    ensures OffDiagonal(p, xs) == c * (SumBy(u, xs) * SumBy(u, xs) - SumBy(uSq, xs))
                                - c * (SumBy(v, xs) * SumBy(v, xs) - SumBy(vSq, xs))
  {
    OffDiagonalSubtract(p, Product(c, u), Product(c, v), xs, |xs|);
    OffDiagonalProduct(Product(c, u), c, u, uSq, xs);
    OffDiagonalProduct(Product(c, v), c, v, vSq, xs);
  }

  lemma Commute(c: real, a: real, t: real)
    ensures c * a * t == c * t * a
  {
  }

  lemma Associate(c: real, a: real, b: real)
    ensures c * a * b == c * (a * b)
  {
  }

  lemma Factor(c: real, t: real, q: real)
    ensures c * t * t - c * q == c * (t * t - q)
  {
  }

  // ---------------------------------------------------------------- finite maps

  /** The sum of f over the values of a map, in no particular key order. */
  ghost function SumMap<K, V>(f: V -> real, m: map<K, V>): real
    decreases |m|
  {
    if m == map[] then 0.0 else
      var k :| k in m;
      f(m[k]) + SumMap(f, m - {k})
  }

  lemma {:induction false} SumMapRemove<K, V>(f: V -> real, m: map<K, V>, k: K)
    requires k in m
    ensures SumMap(f, m) == f(m[k]) + SumMap(f, m - {k})
    decreases |m|
  {
    var k0 :| k0 in m && SumMap(f, m) == f(m[k0]) + SumMap(f, m - {k0});
    if k0 != k {
      SumMapRemove(f, m - {k0}, k);
      SumMapRemove(f, m - {k}, k0);
      assert m - {k0} - {k} == m - {k} - {k0};
    }
  }

  /** Writing one key replaces exactly that key's term. */
  lemma SumMapUpdate<K, V>(f: V -> real, m: map<K, V>, k: K, v: V)
    ensures SumMap(f, m[k := v]) == SumMap(f, m - {k}) + f(v)
    ensures SumMap(f, m) == SumMap(f, m - {k}) + (if k in m then f(m[k]) else 0.0)
  {
    SumMapRemove(f, m[k := v], k);
    assert m[k := v] - {k} == m - {k};
    if k in m {
      SumMapRemove(f, m, k);
    } else {
      assert m - {k} == m;
    }
  }

  lemma SumMapAdd<K, V>(f: V -> real, m: map<K, V>, k: K, v: V)
    requires k !in m
    ensures SumMap(f, m[k := v]) == SumMap(f, m) + f(v)
  {
    SumMapUpdate(f, m, k, v);
    assert m - {k} == m;
  }

  lemma SplitOff<K, V>(a: map<K, V>, b: map<K, V>, k: K)
    requires a.Keys !! b.Keys && k in b
    ensures var rest := b - {k};
            b == rest[k := b[k]] && a + b == (a + rest)[k := b[k]] && k !in rest && k !in a + rest && |rest| < |b|
  {
  }

  lemma {:induction false} SumMapUnion<K, V>(f: V -> real, a: map<K, V>, b: map<K, V>)
    requires a.Keys !! b.Keys
    ensures SumMap(f, a + b) == SumMap(f, a) + SumMap(f, b)
    decreases |b|
  {
    if b == map[] {
      assert a + b == a;
    } else {
      var k :| k in b;
      SplitOff(a, b, k);
      SumMapUnion(f, a, b - {k});
      SumMapAdd(f, a + (b - {k}), k, b[k]);
      SumMapAdd(f, b - {k}, k, b[k]);
    }
  }

  /** Summing over any duplicate-free listing of the keys gives the map's sum. */
  lemma {:induction false} SumMapByListing<K, V>(f: V -> real, m: map<K, V>, keys: seq<K>, vals: seq<V>)
    requires |keys| == |vals|
    requires forall i, j | 0 <= i < j < |keys| :: keys[i] != keys[j]
    requires forall i | 0 <= i < |keys| :: keys[i] in m && m[keys[i]] == vals[i]
    requires forall k | k in m :: k in keys
    ensures SumMap(f, m) == SumBy(f, vals)
    decreases |keys|
  {
    if keys == [] {
      assert m == map[];
    } else {
      SumMapRemove(f, m, keys[0]);
      var rest := m - {keys[0]};
      forall k | k in rest ensures k in keys[1..] {
        assert k in keys;
      }
      forall i | 0 <= i < |keys[1..]| ensures keys[1..][i] in rest && rest[keys[1..][i]] == vals[1..][i] {
        assert keys[0] != keys[i + 1];
      }
      SumMapByListing(f, rest, keys[1..], vals[1..]);
    }
  }

  lemma {:induction false} SumMapNonNegative<K, V>(f: V -> real, m: map<K, V>)
    requires forall k | k in m :: f(m[k]) >= 0.0
    ensures SumMap(f, m) >= 0.0
    decreases |m|
  {
    if m != map[] {
      var k :| k in m;
      SumMapRemove(f, m, k);
      SumMapNonNegative(f, m - {k});
    }
  }
}
