/**
 Rollup keys as Redis sees them: text made of class, bucket, type and, for a per-tenor rollup,
 the tenor. A name that contains a colon can give two groups one key.
 */
module Keys {
  import opened Json
  import opened Tokens

  datatype Group = Group(riskClass: string, bucket: string, sensType: string)

  function BaseKey(g: Group): string { Joined("rollup", Joined(g.riskClass, Joined(g.bucket, g.sensType))) }

  function TenorStem(g: Group): string { BaseKey(g) + ":tenor:" }

  function TenorKey(g: Group, tenor: string): string { TenorStem(g) + tenor }

  function RollupKey(g: Group, tenor: Option<string>): string {
    match tenor
    case None => BaseKey(g)
    case Some(t) => TenorKey(g, t)
  }

  /** What a key is to a group: its base rollup, one of its tenors, or none of its own. */
  datatype Place = Outside | Base | At(tenor: string)

  function PlaceIn(g: Group, key: string): (p: Place)
    ensures p == Base <==> key == BaseKey(g)
    ensures forall t :: p == At(t) <==> key == TenorKey(g, t)
  {
    assert |TenorStem(g)| > |BaseKey(g)|;
    assert forall t :: |TenorKey(g, t)| >= |TenorStem(g)|;
    if key == BaseKey(g) then Base
    else if TenorStem(g) <= key then
      assert key == TenorKey(g, key[|TenorStem(g)|..]);
      assert forall t :: TenorKey(g, t)[|TenorStem(g)|..] == t;
      At(key[|TenorStem(g)|..])
    else
      assert forall t :: TenorStem(g) <= TenorKey(g, t);
      Outside
  }

  // ------------------------------------------------------------ when two keys are one

  /** The parts of a key, cut at every colon. */
  function KeyTokens(g: Group, tenor: Option<string>): seq<string> {
    ["rollup"] + Split(g.riskClass) + Split(g.bucket) + Split(g.sensType)
    + match tenor
      case None => []
      case Some(t) => ["tenor"] + Split(t)
  }

  lemma Flat(a: seq<string>, b: seq<string>, c: seq<string>, d: seq<string>)
    ensures a + (b + c + d) == a + b + c + d + []
  {
  }

  lemma BaseTokens(g: Group)
    ensures Split(BaseKey(g)) == KeyTokens(g, None)
  {
    OneTokenIsWhole("rollup");
    SplitTwice("rollup", Joined(g.riskClass, Joined(g.bucket, g.sensType)));
    SplitThrice(g.riskClass, g.bucket, g.sensType);
    Flat(["rollup"], Split(g.riskClass), Split(g.bucket), Split(g.sensType));
  }

  lemma TenorTokens(g: Group, t: string)
    ensures Split(TenorKey(g, t)) == KeyTokens(g, Some(t))
  {
    OneTokenIsWhole("tenor");
    SplitTwice("tenor", t);
    SplitTwice(BaseKey(g), Joined("tenor", t));
    TenorJoined(g, t);
    BaseTokens(g);
  }

  lemma TenorJoined(g: Group, t: string)
    ensures TenorKey(g, t) == Joined(BaseKey(g), Joined("tenor", t))
  {
    assert ":tenor:" == ":" + "tenor" + ":";
  }

  lemma RollupKeyTokens(g: Group, tenor: Option<string>)
    ensures Split(RollupKey(g, tenor)) == KeyTokens(g, tenor)
  {
    match tenor {
      case None => BaseTokens(g);
      case Some(t) => TenorTokens(g, t);
    }
  }

  /** Two keys are one rollup hash iff their parts, cut at every colon, are the same. */
  lemma SameKeyExactly(g: Group, t: Option<string>, g': Group, t': Option<string>)
    ensures RollupKey(g, t) == RollupKey(g', t') <==> KeyTokens(g, t) == KeyTokens(g', t')
  {
    RollupKeyTokens(g, t);
    RollupKeyTokens(g', t');
    SplitInjective(RollupKey(g, t), RollupKey(g', t'));
  }

  predicate ColonFree(g: Group) { ':' !in g.riskClass && ':' !in g.bucket && ':' !in g.sensType }

  lemma {:induction false} WholeTokens(a: string)
    requires ':' !in a
    ensures Split(a) == [a]
  {
    ColonsZero(a);
    OneTokenIsWhole(a);
  }

  /** Among names without a colon every key is of one class, bucket, type and tenor. */
  lemma ColonFreeKeys(g: Group, t: Option<string>, g': Group, t': Option<string>)
    requires ColonFree(g) && ColonFree(g')
    ensures RollupKey(g, t) == RollupKey(g', t') <==> g == g' && t == t'
  {
    SameKeyExactly(g, t, g', t');
    WholeTokens(g.riskClass);
    WholeTokens(g.bucket);
    WholeTokens(g.sensType);
    WholeTokens(g'.riskClass);
    WholeTokens(g'.bucket);
    WholeTokens(g'.sensType);
    var xs, ys := KeyTokens(g, t), KeyTokens(g', t');
    assert xs[1] == g.riskClass && xs[2] == g.bucket && xs[3] == g.sensType;
    assert ys[1] == g'.riskClass && ys[2] == g'.bucket && ys[3] == g'.sensType;
    assert |xs| >= 4 && (t.Some? <==> |xs| > 4) && |ys| >= 4 && (t'.Some? <==> |ys| > 4);
    if xs == ys {
      if t.Some? && t'.Some? {
        assert xs[5..] == Split(t.value) && ys[5..] == Split(t'.value);
        SplitInjective(t.value, t'.value);
      }
    }
  }

  /** With a colon in a name two groups share a rollup hash, and a type can pass for a tenor. */
  lemma KeysCollide()
    ensures BaseKey(Group("FX:1", "2", "Delta")) == BaseKey(Group("FX", "1:2", "Delta"))
    ensures BaseKey(Group("FX", "1", "Delta:tenor:3M")) == TenorKey(Group("FX", "1", "Delta"), "3M")
  {
    assert Joined("FX:1", Joined("2", "Delta")) == Joined("FX", Joined("1:2", "Delta"));
    assert BaseKey(Group("FX", "1", "Delta:tenor:3M")) == "rollup:FX:1:Delta:tenor:3M";
    assert TenorKey(Group("FX", "1", "Delta"), "3M") == "rollup:FX:1:Delta:tenor:3M";
  }
}
