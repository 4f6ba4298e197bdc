/** Text cut at colons. */
module Tokens {

  function Joined(a: string, b: string): string { a + ":" + b }

  /** Cutting at the first colon is unambiguous. */
  lemma {:induction false} CutOnce(a: string, x: string, b: string, y: string)
    requires ':' !in a && ':' !in b && Joined(a, x) == Joined(b, y)
    ensures a == b && x == y
  {
    var s, t := Joined(a, x), Joined(b, y);
    assert s[0] == if a == "" then ':' else a[0];
    assert t[0] == if b == "" then ':' else b[0];
    if a == "" {
      assert x == s[1..] && y == t[1..];
    } else {
      assert s[1..] == Joined(a[1..], x) && t[1..] == Joined(b[1..], y);
      CutOnce(a[1..], x, b[1..], y);
      assert a == [a[0]] + a[1..] && b == [b[0]] + b[1..];
    }
  }

  function Split(s: string): (ts: seq<string>)
    ensures |ts| >= 1
  {
    if s == "" then [""]
    else
      var rest := Split(s[1..]);
      if s[0] == ':' then [""] + rest else [[s[0]] + rest[0]] + rest[1..]
  }

  function Colons(s: string): nat {
    if s == "" then 0 else (if s[0] == ':' then 1 else 0) + Colons(s[1..])
  }

  function Lengths(ts: seq<string>): nat { if ts == [] then 0 else |ts[0]| + Lengths(ts[1..]) }

  lemma {:induction false} SplitCounts(s: string)
    ensures |Split(s)| == Colons(s) + 1
    ensures Lengths(Split(s)) + Colons(s) == |s|
  {
    if s == "" {
      assert Lengths([""]) == 0;
    } else {
      SplitCounts(s[1..]);
      var rest := Split(s[1..]);
      if s[0] == ':' {
        assert ([""] + rest)[1..] == rest;
      } else {
        assert ([[s[0]] + rest[0]] + rest[1..])[1..] == rest[1..];
      }
    }
  }

  lemma {:induction false} ColonsAppend(a: string, b: string)
    ensures Colons(a + b) == Colons(a) + Colons(b)
  {
    if a == "" {
      assert a + b == b;
    } else {
      assert (a + b)[1..] == a[1..] + b;
      ColonsAppend(a[1..], b);
    }
  }

  lemma {:induction false} ColonsZero(a: string)
    ensures Colons(a) == 0 <==> ':' !in a
  {
    if a != "" {
      ColonsZero(a[1..]);
      assert a == [a[0]] + a[1..];
    }
  }

  lemma {:induction false} OneTokenIsWhole(s: string)
    requires Colons(s) == 0
    ensures Split(s) == [s]
  {
    if s != "" {
      OneTokenIsWhole(s[1..]);
      assert s == [s[0]] + s[1..];
    }
  }

  function Prepended(c: char, ts: seq<string>): seq<string>
    requires |ts| >= 1
  {
    if c == ':' then [""] + ts else [[c] + ts[0]] + ts[1..]
  }

  lemma SplitCons(c: char, s: string)
    ensures Split([c] + s) == Prepended(c, Split(s))
  {
    assert ([c] + s)[1..] == s;
  }

  lemma PrependedAppend(c: char, xs: seq<string>, ys: seq<string>)
    requires |xs| >= 1
    ensures Prepended(c, xs + ys) == Prepended(c, xs) + ys
  {
    assert (xs + ys)[1..] == xs[1..] + ys;
  }

  lemma {:induction false} SplitTwice(a: string, b: string)
    ensures Split(Joined(a, b)) == Split(a) + Split(b)
  {
    if a == "" {
      assert Joined(a, b) == [':'] + b;
      SplitCons(':', b);
    } else {
      SplitTwice(a[1..], b);
      assert Joined(a, b) == [a[0]] + Joined(a[1..], b) && a == [a[0]] + a[1..];
      SplitCons(a[0], Joined(a[1..], b));
      SplitCons(a[0], a[1..]);
      PrependedAppend(a[0], Split(a[1..]), Split(b));
    }
  }

  lemma SplitThrice(a: string, b: string, c: string)
    ensures Split(Joined(a, Joined(b, c))) == Split(a) + Split(b) + Split(c)
  {
    SplitTwice(b, c);
    SplitTwice(a, Joined(b, c));
    Regrouped(Split(a), Split(b), Split(c));
  }

  lemma Regrouped(a: seq<string>, b: seq<string>, c: seq<string>)
    ensures a + (b + c) == a + b + c
  {
  }

  /** Nothing but the text gives its tokens. */
  lemma {:induction false} SplitInjective(a: string, b: string)
    ensures Split(a) == Split(b) <==> a == b
    decreases |a| + |b|
  {
    if a != "" && b != "" {
      SplitInjective(a[1..], b[1..]);
      assert a == [a[0]] + a[1..] && b == [b[0]] + b[1..];
      var x, y := Split(a[1..]), Split(b[1..]);
      if a[0] == ':' && b[0] == ':' {
        assert Split(a)[1..] == x && Split(b)[1..] == y;
      } else if a[0] != ':' && b[0] != ':' {
        assert x == [x[0]] + x[1..] && y == [y[0]] + y[1..];
        assert Split(a)[0] == [a[0]] + x[0] && Split(b)[0] == [b[0]] + y[0];
        assert Split(a)[0][1..] == x[0] && Split(b)[0][1..] == y[0];
        assert Split(a)[1..] == x[1..] && Split(b)[1..] == y[1..];
      }
    } else if a != "" || b != "" {
      SplitCounts(a);
      SplitCounts(b);
    }
  }
}
