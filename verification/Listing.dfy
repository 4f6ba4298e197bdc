/** Filtering, de-duplicating and sorting lists, up to reordering of the input. */
module Listing {
  import opened Json
  import opened Sums

  function FilterMap<T, U>(f: T -> Option<U>, xs: seq<T>): seq<U> {
    if xs == [] then []
    else FilterMap(f, xs[..|xs| - 1]) + (match f(xs[|xs| - 1]) case Some(u) => [u] case None => [])
  }

  lemma FilterMapSnoc<T, U>(f: T -> Option<U>, xs: seq<T>, x: T)
    ensures FilterMap(f, xs + [x]) == match f(x) case Some(u) => FilterMap(f, xs) + [u] case None => FilterMap(f, xs)
  {
    assert (xs + [x])[..|xs|] == xs;
  }

  lemma {:induction false} FilterMapAppend<T, U>(f: T -> Option<U>, xs: seq<T>, ys: seq<T>)
    ensures FilterMap(f, xs + ys) == FilterMap(f, xs) + FilterMap(f, ys)
  {
    if ys == [] {
      assert xs + ys == xs;
    } else {
      assert (xs + ys)[..|xs + ys| - 1] == xs + ys[..|ys| - 1];
      FilterMapAppend(f, xs, ys[..|ys| - 1]);
    }
  }

  lemma FilterMapInsert<T, U>(f: T -> Option<U>, before: seq<T>, x: T, after: seq<T>)
    ensures multiset(FilterMap(f, before + [x] + after))
            == multiset(FilterMap(f, [x])) + multiset(FilterMap(f, before + after))
  {
    FilterMapAppend(f, before + [x], after);
    FilterMapAppend(f, before, [x]);
    FilterMapAppend(f, before, after);
  }

  /** Reordering the input only reorders what passes the filter. */
  lemma {:induction false} FilterMapPermutation<T, U>(f: T -> Option<U>, xs: seq<T>, ys: seq<T>)
    requires multiset(xs) == multiset(ys)
    ensures multiset(FilterMap(f, xs)) == multiset(FilterMap(f, ys))
    decreases |xs|
  {
    if xs == [] {
      assert |ys| == |multiset(ys)| == 0;
    } else {
      var before, after := MatchHead(xs, ys);
      FilterMapPermutation(f, xs[1..], before + after);
      assert xs == [xs[0]] + xs[1..];
      FilterMapAppend(f, [xs[0]], xs[1..]);
      FilterMapInsert(f, before, xs[0], after);
    }
  }

  lemma {:induction false} FilterMapMembers<T, U>(f: T -> Option<U>, xs: seq<T>, u: U)
    ensures u in FilterMap(f, xs) <==> exists i :: 0 <= i < |xs| && f(xs[i]) == Some(u)
  {
    if xs != [] {
      var rest := xs[..|xs| - 1];
      FilterMapMembers(f, rest, u);
      assert forall i | 0 <= i < |rest| :: rest[i] == xs[i];
    }
  }

  /** The distinct elements in the order of first appearance. */
  function Distinct<T(==)>(xs: seq<T>): seq<T> {
    if xs == [] then []
    else
      var rest, x := Distinct(xs[..|xs| - 1]), xs[|xs| - 1];
      if x in rest then rest else rest + [x]
  }

  ghost predicate NoRepeats<T>(xs: seq<T>) {
    forall i, j | 0 <= i < j < |xs| :: xs[i] != xs[j]
  }

  lemma {:induction false} OnceOrNever<T>(xs: seq<T>, x: T)
    requires NoRepeats(xs)
    ensures multiset(xs)[x] == if x in xs then 1 else 0
  {
    if xs != [] {
      assert forall i, j | 0 <= i < j < |xs[1..]| :: xs[1..][i] == xs[i + 1] && xs[1..][j] == xs[j + 1];
      OnceOrNever(xs[1..], x);
      assert xs == [xs[0]] + xs[1..];
    }
  }

  lemma {:induction false} DistinctElements<T>(xs: seq<T>)
    ensures NoRepeats(Distinct(xs))
    ensures forall x :: x in Distinct(xs) <==> x in xs
  {
    if xs != [] {
      var rest := xs[..|xs| - 1];
      DistinctElements(rest);
      assert xs == rest + [xs[|xs| - 1]];
    }
  }

  // ---------------------------------------------------------------- strings in code-unit order

  predicate Less(a: string, b: string) {
    b != [] && (a == [] || a[0] < b[0] || (a[0] == b[0] && Less(a[1..], b[1..])))
  }

  lemma {:induction false} LessTotal(a: string, b: string)
    ensures Less(a, b) || a == b || Less(b, a)
    ensures !(Less(a, b) && Less(b, a)) && !Less(a, a)
  {
    if a != [] && b != [] {
      LessTotal(a[1..], b[1..]);
      assert a == [a[0]] + a[1..] && b == [b[0]] + b[1..];
    }
    if a != [] {
      LessTotal(a[1..], a[1..]);
    }
  }

  lemma {:induction false} LessTransitive(a: string, b: string, c: string)
    requires Less(a, b) && Less(b, c)
    ensures Less(a, c)
  {
    if a != [] && a[0] == b[0] == c[0] {
      LessTransitive(a[1..], b[1..], c[1..]);
    }
  }

  ghost predicate Ascending(xs: seq<string>) {
    forall i, j | 0 <= i < j < |xs| :: Less(xs[i], xs[j])
  }

  function Insert(x: string, xs: seq<string>): seq<string> {
    if xs == [] then [x]
    else if Less(x, xs[0]) then [x] + xs
    else [xs[0]] + Insert(x, xs[1..])
  }

  function Sort(xs: seq<string>): seq<string> {
    if xs == [] then [] else Insert(xs[0], Sort(xs[1..]))
  }

  lemma {:induction false} InsertAscending(x: string, xs: seq<string>)
    requires Ascending(xs) && x !in xs
    ensures Ascending(Insert(x, xs))
    ensures forall y :: y in Insert(x, xs) <==> y == x || y in xs
  {
    if xs != [] {
      LessTotal(x, xs[0]);
      if Less(x, xs[0]) {
        forall j | 1 <= j < |xs| ensures Less(x, xs[j]) { LessTransitive(x, xs[0], xs[j]); }
      } else {
        InsertAscending(x, xs[1..]);
        var r := Insert(x, xs[1..]);
        forall j | 0 <= j < |r| ensures Less(xs[0], r[j]) {
          assert r[j] in r;
          if r[j] != x {
            var k :| 0 <= k < |xs[1..]| && xs[1..][k] == r[j];
            assert Less(xs[0], xs[k + 1]);
          }
        }
      }
      assert xs == [xs[0]] + xs[1..];
    }
  }

  lemma {:induction false} SortAscending(xs: seq<string>)
    requires NoRepeats(xs)
    ensures Ascending(Sort(xs))
    ensures forall y :: y in Sort(xs) <==> y in xs
  {
    if xs != [] {
      SortAscending(xs[1..]);
      assert xs == [xs[0]] + xs[1..];
      assert xs[0] !in xs[1..];
      InsertAscending(xs[0], Sort(xs[1..]));
    }
  }

  lemma HeadIsMember(xs: seq<string>)
    ensures xs != [] ==> xs[0] in xs
  {
  }

  lemma HeadIsLeast(xs: seq<string>, y: string)
    requires Ascending(xs) && y in xs
    ensures y == xs[0] || Less(xs[0], y)
  {
  }

  /** An ascending list is determined by its elements. */
  lemma {:induction false} AscendingUnique(xs: seq<string>, ys: seq<string>)
    requires Ascending(xs) && Ascending(ys)
    requires forall y :: y in xs <==> y in ys
    ensures xs == ys
    decreases |xs|
  {
    HeadIsMember(xs);
    HeadIsMember(ys);
    if xs != [] {
      HeadIsLeast(xs, ys[0]);
      HeadIsLeast(ys, xs[0]);
      LessTotal(xs[0], ys[0]);
      assert xs[0] == ys[0];
      assert xs == [xs[0]] + xs[1..] && ys == [ys[0]] + ys[1..];
      forall y ensures y in xs[1..] <==> y in ys[1..] {
        LessTotal(xs[0], xs[0]);
        assert y in xs[1..] ==> y in xs && Less(xs[0], y);
        assert y in ys[1..] ==> y in ys && Less(ys[0], y);
      }
      AscendingUnique(xs[1..], ys[1..]);
    }
  }
}
