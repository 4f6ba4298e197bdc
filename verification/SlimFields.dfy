/** The fields the bulk loader writes for a row, spelled out: which number goes under which name. */
module SlimFields {
  import opened Json
  import opened Listing
  import opened Docs
  import opened HashForm
  import opened Figures
  import opened Spelled
  import opened Padding

  lemma {:induction false} LastArgument(base: seq<Arg>, prefix: string, fields: seq<(string, Json)>, i: int)
    requires LastUnder(fields, i)
    ensures var h := HashOf(base + FilterMap(NumericArg(prefix), fields));
            prefix + fields[i].0 in h && h[prefix + fields[i].0] == Number(fields[i].1.n)
  {
    var before, last := fields[..|fields| - 1], fields[|fields| - 1];
    assert fields == before + [last];
    NumberAppended(base, prefix, before, last);
    if i < |before| {
      LastUnderSnoc(before, last, i);
      LastArgument(base, prefix, before, i);
      if last.1.JNum? { SuffixesAgree(prefix, fields[i].0, last.0); }
    }
  }

  lemma NumberAppended(base: seq<Arg>, prefix: string, before: seq<(string, Json)>, last: (string, Json))
    ensures var h := HashOf(base + FilterMap(NumericArg(prefix), before));
            HashOf(base + FilterMap(NumericArg(prefix), before + [last]))
            == if last.1.JNum? then h[prefix + last.0 := Number(last.1.n)] else h
  {
    FilterMapSnoc(NumericArg(prefix), before, last);
    if last.1.JNum? {
      var args, a := base + FilterMap(NumericArg(prefix), before), (prefix + last.0, Number(last.1.n));
      assert base + FilterMap(NumericArg(prefix), before + [last]) == args + [a];
      HashOfSnoc(args, a);
    }
  }

  lemma {:induction false} NoOtherArgument(base: seq<Arg>, prefix: string, fields: seq<(string, Json)>, f: string)
    ensures f in HashOf(base + FilterMap(NumericArg(prefix), fields)) ==>
              f in HashOf(base) || exists i :: LastUnder(fields, i) && f == prefix + fields[i].0
  {
    if fields == [] {
      assert base + FilterMap(NumericArg(prefix), fields) == base;
    } else {
      var before, last := fields[..|fields| - 1], fields[|fields| - 1];
      assert fields == before + [last];
      NumberAppended(base, prefix, before, last);
      NoOtherArgument(base, prefix, before, f);
      if f in HashOf(base + FilterMap(NumericArg(prefix), fields)) && f !in HashOf(base) {
        if last.1.JNum? && f == prefix + last.0 {
          LastUnderSnoc(before, last, |before|);
          assert LastUnder(fields, |before|) && f == prefix + fields[|before|].0;
        } else {
          var i :| LastUnder(before, i) && f == prefix + before[i].0;
          LastUnderSnoc(before, last, i);
          assert LastUnder(fields, i) && f == prefix + fields[i].0;
        }
      }
    }
  }

  // ------------------------------------------------------------ labelled arrays

  /** The number last given at a position labelled with its text. */
  predicate LastAt(labels: seq<Json>, items: seq<Json>, n: nat, i: int) {
    && n <= |labels| && n <= |items| && 0 <= i < n && labels[i].JStr? && items[i].JNum?
    && forall j | i < j < n && labels[j] == labels[i] :: !items[j].JNum?
  }

  function Shorter(a: nat, b: nat): nat { if a < b then a else b }

  lemma {:induction false} LabelledFrom(labels: seq<Json>, items: seq<Json>, k: nat) returns (j: nat)
    requires k < |Labelled(labels, items)|
    ensures j < |labels| && j < |items| && labels[j] == JStr(Labelled(labels, items)[k].0)
            && items[j] == Labelled(labels, items)[k].1
  {
    var rest := Labelled(labels[1..], items[1..]);
    if labels[0].JStr? && k == 0 {
      j := 0;
    } else {
      j := LabelledFrom(labels[1..], items[1..], if labels[0].JStr? then k - 1 else k);
      j := j + 1;
    }
  }

  lemma FirstIsLast(labels: seq<Json>, items: seq<Json>)
    requires LastAt(labels, items, Shorter(|labels|, |items|), 0)
    ensures LastUnder(Labelled(labels, items), 0) && Labelled(labels, items)[0] == (labels[0].s, items[0])
  {
    var fields := Labelled(labels, items);
    forall j | 0 < j < |fields| && fields[j].0 == fields[0].0 ensures !fields[j].1.JNum? {
      var p := LabelledFrom(labels[1..], items[1..], j - 1);
      assert labels[1..][p] == labels[p + 1] && items[1..][p] == items[p + 1];
    }
  }

  lemma LastShifted(rest: seq<(string, Json)>, first: (string, Json), k: int)
    requires LastUnder(rest, k)
    ensures LastUnder([first] + rest, k + 1) && ([first] + rest)[k + 1] == rest[k]
  {
    var fields := [first] + rest;
    assert forall j | 0 <= j < |rest| :: fields[j + 1] == rest[j];
    forall j | k + 1 < j < |fields| && fields[j].0 == fields[k + 1].0 ensures !fields[j].1.JNum? {
      assert fields[j] == rest[j - 1];
    }
  }

  lemma {:induction false} LabelledLast(labels: seq<Json>, items: seq<Json>, i: int) returns (k: int)
    requires LastAt(labels, items, Shorter(|labels|, |items|), i)
    ensures LastUnder(Labelled(labels, items), k) && Labelled(labels, items)[k] == (labels[i].s, items[i])
  {
    if i == 0 {
      k := 0;
      FirstIsLast(labels, items);
    } else {
      k := LabelledLast(labels[1..], items[1..], i - 1);
      if labels[0].JStr? {
        LastShifted(Labelled(labels[1..], items[1..]), (labels[0].s, items[0]), k);
        k := k + 1;
      } else {
        assert [] + Labelled(labels[1..], items[1..]) == Labelled(labels[1..], items[1..]);
      }
    }
  }

  // ------------------------------------------------------------ Delta and Vega rows

  function LegOf(raw: RawDoc): string { if raw.sensType == "Vega" then "vega" else "delta" }

  /** The row's class in lower case; an absent one is spelled undefined. */
  ghost predicate SlimClass(raw: RawDoc, lower: string) {
    IsLower(lower, if raw.classTag.Some? then raw.classTag.value else "undefined")
  }

  lemma SlimNames(raw: RawDoc, lower: string, leg: string)
    requires SlimClass(raw, lower)
    ensures SlimName(ClassText(raw), leg) == "s_" + lower + "_" + leg
    ensures SlimPrefix(ClassText(raw), leg) == "s_" + lower + "_" + leg + "_"
  {
    LowerIs(lower, ClassText(raw));
  }

  lemma LastOfList(base: seq<Arg>, a: Arg)
    ensures HashOf(base + [a])[a.0] == a.1
  {
    HashOfSnoc(base, a);
  }

  /** A single number goes under s_<class>_delta or s_<class>_vega. */
  lemma SlimSingle(raw: RawDoc, lower: string, v: real)
    requires SlimClass(raw, lower) && raw.sensType != "Curvature" && IsSingle(raw.riskValue, v)
    ensures var name := "s_" + lower + "_" + LegOf(raw);
            name in HashOf(RowArgs(raw)) && HashOf(RowArgs(raw))[name] == Number(v)
  {
    SlimNames(raw, lower, LegOf(raw));
    var a := ("s_" + lower + "_" + LegOf(raw), Number(v));
    if raw.riskValue.JObj? { assert raw.riskValue.fields[0].1 == JNum(v); }
    assert RowArgs(raw) == TagArgs(raw) + [a];
    HashOfSnoc(TagArgs(raw), a);
  }

  /** Each label's last number goes under s_<class>_delta_<label> or s_<class>_vega_<label>, and no other does. */
  lemma SlimObject(raw: RawDoc, lower: string, i: int, f: string)
    requires SlimClass(raw, lower) && raw.sensType != "Curvature" && raw.riskValue.JObj?
             && (forall v :: !IsSingle(raw.riskValue, v))
    ensures var fields, prefix, h := raw.riskValue.fields, "s_" + lower + "_" + LegOf(raw) + "_", HashOf(RowArgs(raw));
            && (LastUnder(fields, i) ==> prefix + fields[i].0 in h && h[prefix + fields[i].0] == Number(fields[i].1.n))
            && (f in h ==> f in HashOf(TagArgs(raw)) || exists j :: LastUnder(fields, j) && f == prefix + fields[j].0)
  {
    var fields, prefix := raw.riskValue.fields, "s_" + lower + "_" + LegOf(raw) + "_";
    SlimNames(raw, lower, LegOf(raw));
    var v := if |fields| == 1 && fields[0].1.JNum? then fields[0].1.n else 0.0;
    assert !IsSingle(raw.riskValue, v);
    assert RowArgs(raw) == TagArgs(raw) + FilterMap(NumericArg(prefix), fields);
    if LastUnder(fields, i) { LastArgument(TagArgs(raw), prefix, fields, i); }
    NoOtherArgument(TagArgs(raw), prefix, fields, f);
  }

  /** An array's numbers go under the texts at their positions of the row's tenor list. */
  lemma SlimArray(raw: RawDoc, lower: string, i: int)
    requires SlimClass(raw, lower) && raw.sensType != "Curvature" && raw.riskValue.JArr? && raw.tenor.JArr?
    requires LastAt(raw.tenor.items, raw.riskValue.items, Shorter(|raw.tenor.items|, |raw.riskValue.items|), i)
    ensures var name := "s_" + lower + "_" + LegOf(raw) + "_" + raw.tenor.items[i].s;
            name in HashOf(RowArgs(raw)) && HashOf(RowArgs(raw))[name] == Number(raw.riskValue.items[i].n)
  {
    SlimNames(raw, lower, LegOf(raw));
    var fields := Labelled(raw.tenor.items, raw.riskValue.items);
    var k := LabelledLast(raw.tenor.items, raw.riskValue.items, i);
    LastArgument(TagArgs(raw), "s_" + lower + "_" + LegOf(raw) + "_", fields, k);
  }

  // ------------------------------------------------------------ Curvature rows

  lemma UpIsNotDown(lower: string, a: string, b: string)
    ensures "s_" + lower + "_cvr_up_" + a != "s_" + lower + "_cvr_down_" + b
  {
    var n := |"s_" + lower + "_cvr_"|;
    assert ("s_" + lower + "_cvr_up_" + a)[n] == 'u' && ("s_" + lower + "_cvr_down_" + b)[n] == 'd';
  }

  lemma CurvaturePair(raw: RawDoc, lower: string, up: real, down: real)
    requires SlimClass(raw, lower) && raw.sensType == "Curvature" && raw.riskValue.JObj?
    requires Lookup(raw.riskValue.fields, "cvr_up") == JNum(up)
    requires Lookup(raw.riskValue.fields, "cvr_down") == JNum(down)
    ensures RowArgs(raw) == (TagArgs(raw) + [("s_" + lower + "_cvr_up", Number(up))])
                            + [("s_" + lower + "_cvr_down", Number(down))]
  {
    SlimNames(raw, lower, "cvr_up");
    SlimNames(raw, lower, "cvr_down");
    assert "s_" + lower + "_" + "cvr_up" == "s_" + lower + "_cvr_up";
    assert "s_" + lower + "_" + "cvr_down" == "s_" + lower + "_cvr_down";
  }

  /** Scalar curvature figures go under s_<class>_cvr_up and s_<class>_cvr_down. */
  lemma SlimCurvature(raw: RawDoc, lower: string, up: real, down: real)
    requires SlimClass(raw, lower) && raw.sensType == "Curvature" && raw.riskValue.JObj?
    requires Holds(raw.riskValue.fields, "cvr_up", JNum(up)) && Holds(raw.riskValue.fields, "cvr_down", JNum(down))
    ensures var h := HashOf(RowArgs(raw));
            && "s_" + lower + "_cvr_up" in h && h["s_" + lower + "_cvr_up"] == Number(up)
            && "s_" + lower + "_cvr_down" in h && h["s_" + lower + "_cvr_down"] == Number(down)
  {
    LookupHolds(raw.riskValue.fields, "cvr_up", JNum(up));
    LookupHolds(raw.riskValue.fields, "cvr_down", JNum(down));
    CurvaturePair(raw, lower, up, down);
    var a, b := ("s_" + lower + "_cvr_up", Number(up)), ("s_" + lower + "_cvr_down", Number(down));
    assert |a.0| != |b.0|;
    HashOfSnoc(TagArgs(raw), a);
    HashOfSnoc(TagArgs(raw) + [a], b);
  }

  /** Where the numbers of one position go, by the two name stems. */
  function WithPair(h: Hash, upStem: string, downStem: string, text: Json, up: Json, down: Json): Hash {
    if !text.JStr? then h
    else
      var h1 := if up.JNum? then h[upStem + text.s := Number(up.n)] else h;
      if down.JNum? then h1[downStem + text.s := Number(down.n)] else h1
  }

  lemma PairAppended(args: seq<Arg>, riskClass: string, text: Json, up: Json, down: Json)
    ensures HashOf(args + CvrPair(riskClass, text, up, down))
            == WithPair(HashOf(args), SlimPrefix(riskClass, "cvr_up"), SlimPrefix(riskClass, "cvr_down"),
                        text, up, down)
  {
    assert args + [] == args;
    if text.JStr? {
      var ups := if up.JNum? then [(SlimPrefix(riskClass, "cvr_up") + text.s, Number(up.n))] else [];
      if up.JNum? { HashOfSnoc(args, ups[0]); }
      if down.JNum? {
        var b := (SlimPrefix(riskClass, "cvr_down") + text.s, Number(down.n));
        assert args + (ups + [b]) == (args + ups) + [b];
        HashOfSnoc(args + ups, b);
      } else {
        assert ups + [] == ups;
      }
    }
  }

  /** No name is of both stems. */
  ghost predicate Apart(upStem: string, downStem: string) { forall a, b :: upStem + a != downStem + b }

  /** A pair writes its own two fields and leaves those of other labels alone. */
  lemma PairKeeps(h: Hash, upStem: string, downStem: string, t: string, text: string, up: Json, down: Json)
    requires Apart(upStem, downStem)
    ensures var h1 := WithPair(h, upStem, downStem, JStr(text), up, down);
            var upName, downName := upStem + t, downStem + t;
            && (t == text && up.JNum? ==> upName in h1 && h1[upName] == Number(up.n))
            && (t == text && down.JNum? ==> downName in h1 && h1[downName] == Number(down.n))
            && (t != text || !up.JNum? ==> (upName in h ==> upName in h1 && h1[upName] == h[upName]))
            && (t != text || !down.JNum? ==> (downName in h ==> downName in h1 && h1[downName] == h[downName]))
  {
    SuffixesAgree(upStem, t, text);
    SuffixesAgree(downStem, t, text);
    assert upStem + t != downStem + text && upStem + text != downStem + t;
  }

  /** The last number at position i, if it is one, is stored under its text. */
  predicate StoredAt(h: Hash, stem: string, labels: seq<Json>, items: seq<Json>, n: nat, i: int) {
    LastAt(labels, items, n, i) ==> var name := stem + labels[i].s; name in h && h[name] == Number(items[i].n)
  }

  lemma LastAtSnoc(labels: seq<Json>, items: seq<Json>, n: nat, i: int)
    requires 0 < n <= |labels| && n <= |items| && LastAt(labels, items, n, i)
    ensures i == n - 1 || (LastAt(labels, items, n - 1, i) && !(labels[n - 1] == labels[i] && items[n - 1].JNum?))
  {
  }

  lemma StoredStep(h: Hash, upStem: string, downStem: string, labels: seq<Json>, ups: seq<Json>, downs: seq<Json>,
      n: nat, i: int)
    requires Apart(upStem, downStem) && 0 < n <= |labels| && n <= |ups| && n <= |downs|
    requires StoredAt(h, upStem, labels, ups, n - 1, i) && StoredAt(h, downStem, labels, downs, n - 1, i)
    ensures var h1 := WithPair(h, upStem, downStem, labels[n - 1], ups[n - 1], downs[n - 1]);
            StoredAt(h1, upStem, labels, ups, n, i) && StoredAt(h1, downStem, labels, downs, n, i)
  {
    var text := labels[n - 1];
    if text.JStr? {
      if LastAt(labels, ups, n, i) {
        LastAtSnoc(labels, ups, n, i);
        PairKeeps(h, upStem, downStem, labels[i].s, text.s, ups[n - 1], downs[n - 1]);
      }
      if LastAt(labels, downs, n, i) {
        LastAtSnoc(labels, downs, n, i);
        PairKeeps(h, upStem, downStem, labels[i].s, text.s, ups[n - 1], downs[n - 1]);
      }
    }
  }

  lemma PairsStep(base: seq<Arg>, riskClass: string, labels: seq<Json>, ups: seq<Json>, downs: seq<Json>, n: nat)
    requires 0 < n <= |labels| && n <= |ups| && n <= |downs|
    ensures HashOf(base + CvrPairs(riskClass, labels, ups, downs, n))
            == WithPair(HashOf(base + CvrPairs(riskClass, labels, ups, downs, n - 1)),
                        SlimPrefix(riskClass, "cvr_up"), SlimPrefix(riskClass, "cvr_down"),
                        labels[n - 1], ups[n - 1], downs[n - 1])
  {
    var before := CvrPairs(riskClass, labels, ups, downs, n - 1);
    var pair := CvrPair(riskClass, labels[n - 1], ups[n - 1], downs[n - 1]);
    assert base + (before + pair) == base + before + pair;
    PairAppended(base + before, riskClass, labels[n - 1], ups[n - 1], downs[n - 1]);
  }

  lemma {:induction false} PairsStored(base: seq<Arg>, riskClass: string, upStem: string, downStem: string,
      labels: seq<Json>, ups: seq<Json>, downs: seq<Json>, n: nat, i: int)
    requires Apart(upStem, downStem) && n <= |labels| && n <= |ups| && n <= |downs|
    requires upStem == SlimPrefix(riskClass, "cvr_up") && downStem == SlimPrefix(riskClass, "cvr_down")
    ensures var h := HashOf(base + CvrPairs(riskClass, labels, ups, downs, n));
            StoredAt(h, upStem, labels, ups, n, i) && StoredAt(h, downStem, labels, downs, n, i)
    decreases n
  {
    if n > 0 {
      PairsStored(base, riskClass, upStem, downStem, labels, ups, downs, n - 1, i);
      PairsStep(base, riskClass, labels, ups, downs, n);
      StoredStep(HashOf(base + CvrPairs(riskClass, labels, ups, downs, n - 1)), upStem, downStem,
                 labels, ups, downs, n, i);
    }
  }

  lemma CurvatureStems(raw: RawDoc, lower: string)
    requires SlimClass(raw, lower)
    ensures SlimPrefix(ClassText(raw), "cvr_up") == "s_" + lower + "_cvr_up_"
    ensures SlimPrefix(ClassText(raw), "cvr_down") == "s_" + lower + "_cvr_down_"
    ensures Apart("s_" + lower + "_cvr_up_", "s_" + lower + "_cvr_down_")
  {
    SlimNames(raw, lower, "cvr_up");
    SlimNames(raw, lower, "cvr_down");
    assert "s_" + lower + "_" + "cvr_up" + "_" == "s_" + lower + "_cvr_up_";
    assert "s_" + lower + "_" + "cvr_down" + "_" == "s_" + lower + "_cvr_down_";
    forall a, b ensures "s_" + lower + "_cvr_up_" + a != "s_" + lower + "_cvr_down_" + b {
      UpIsNotDown(lower, a, b);
    }
  }

  lemma CurvatureArrayArgs(raw: RawDoc, up: Json, down: Json)
    requires raw.sensType == "Curvature" && raw.riskValue.JObj? && raw.tenor.JArr? && up.JArr? && down.JArr?
    requires Lookup(raw.riskValue.fields, "cvr_up") == up && Lookup(raw.riskValue.fields, "cvr_down") == down
    ensures RowArgs(raw) == TagArgs(raw)
              + CvrPairs(ClassText(raw), raw.tenor.items, up.items, down.items,
                         MinLength(|up.items|, |down.items|, |raw.tenor.items|))
  {
  }

  /** Curvature arrays: each leg's numbers under the texts at their positions, up and down apart. */
  lemma SlimCurvatureArrays(raw: RawDoc, lower: string, ups: seq<Json>, downs: seq<Json>, n: nat, i: int)
    requires SlimClass(raw, lower) && raw.sensType == "Curvature" && raw.riskValue.JObj? && raw.tenor.JArr?
    requires Holds(raw.riskValue.fields, "cvr_up", JArr(ups)) && Holds(raw.riskValue.fields, "cvr_down", JArr(downs))
    requires n == Shorter(Shorter(|ups|, |downs|), |raw.tenor.items|)
    ensures StoredAt(HashOf(RowArgs(raw)), "s_" + lower + "_cvr_up_", raw.tenor.items, ups, n, i)
    ensures StoredAt(HashOf(RowArgs(raw)), "s_" + lower + "_cvr_down_", raw.tenor.items, downs, n, i)
  {
    LookupHolds(raw.riskValue.fields, "cvr_up", JArr(ups));
    LookupHolds(raw.riskValue.fields, "cvr_down", JArr(downs));
    CurvatureArrayArgs(raw, JArr(ups), JArr(downs));
    assert MinLength(|ups|, |downs|, |raw.tenor.items|) == n;
    CurvatureStems(raw, lower);
    PairsStored(TagArgs(raw), ClassText(raw), "s_" + lower + "_cvr_up_", "s_" + lower + "_cvr_down_",
                raw.tenor.items, ups, downs, n, i);
  }

  // ------------------------------------------------------------ attributes

  lemma {:induction false} TagStored(raw: RawDoc, names: seq<string>, k: string)
    ensures k in HashOf(FilterMap(TagArg(raw), names)) <==> k in names && Padding.TagOf(raw, k).Some?
    ensures k in names && Padding.TagOf(raw, k).Some? ==>
              HashOf(FilterMap(TagArg(raw), names))[k] == Text(Padding.TagOf(raw, k).value)
  {
    if names != [] {
      var before, last := names[..|names| - 1], names[|names| - 1];
      assert names == before + [last];
      TagStored(raw, before, k);
      FilterMapSnoc(TagArg(raw), before, last);
      if Padding.TagOf(raw, last).Some? {
        HashOfSnoc(FilterMap(TagArg(raw), before), (last, Text(Padding.TagOf(raw, last).value)));
      }
    }
  }

  /** The seven attributes of the slim index go out as they are, and no other. */
  lemma SlimAttributes(raw: RawDoc, k: string)
    ensures var h := HashOf(TagArgs(raw));
            && ("risk_class" in h <==> raw.classTag.Some?) && ("bucket" in h <==> raw.bucketTag.Some?)
            && ("sensitivity_type" in h <==> raw.typeTag.Some?)
            && (raw.classTag.Some? ==> h["risk_class"] == Text(raw.classTag.value))
            && (raw.bucketTag.Some? ==> h["bucket"] == Text(raw.bucketTag.value))
            && (raw.typeTag.Some? ==> h["sensitivity_type"] == Text(raw.typeTag.value))
            && (k in ["book", "trade_id", "risk_factor", "desk"] ==>
                  (k in h <==> k in raw.tags) && (k in h ==> h[k] == Text(raw.tags[k])))
            && (k in h ==> k in ["risk_class", "bucket", "sensitivity_type", "book", "trade_id", "risk_factor", "desk"])
  {
    TagStored(raw, TAG_NAMES, "risk_class");
    TagStored(raw, TAG_NAMES, "bucket");
    TagStored(raw, TAG_NAMES, "sensitivity_type");
    TagStored(raw, TAG_NAMES, k);
  }

  // ------------------------------------------------------------ padding

  /** A padded name of the row: one of its type's names for a label. */
  ghost predicate IsPadName(raw: RawDoc, lower: string, t: string, f: string) {
    if raw.sensType == "Curvature" then f == "s_" + lower + "_cvr_up_" + t || f == "s_" + lower + "_cvr_down_" + t
    else f == "s_" + lower + "_" + LegOf(raw) + "_" + t
  }

  lemma PadNames(raw: RawDoc, lower: string, t: string, f: string)
    requires SlimClass(raw, lower)
    ensures IsPadName(raw, lower, t, f)
            <==> exists leg :: leg in PadLegs(raw.sensType) && f == SlimPrefix(ClassText(raw), leg) + t
  {
    CurvatureStems(raw, lower);
    SlimNames(raw, lower, LegOf(raw));
    assert forall leg :: leg in ["cvr_up", "cvr_down"] <==> leg == "cvr_up" || leg == "cvr_down";
  }

  lemma {:induction false} DeclaredOnly(riskClass: string, legs: seq<string>, tenors: seq<string>, f: string)
    requires f in Declared(riskClass, legs, tenors)
    ensures exists t, leg :: t in tenors && leg in legs && f == SlimPrefix(riskClass, leg) + t
  {
    var before, last := legs[..|legs| - 1], legs[|legs| - 1];
    assert legs == before + [last];
    if f in Declared(riskClass, before, tenors) {
      DeclaredOnly(riskClass, before, tenors, f);
      var t, leg :| t in tenors && leg in before && f == SlimPrefix(riskClass, leg) + t;
      assert leg in legs;
    } else {
      var i :| 0 <= i < |tenors| && LegNames(riskClass, last, tenors)[i] == f;
      assert tenors[i] in tenors && last in legs;
    }
  }

  /** Padding adds nothing but zeros, under every name of the row's type for every label that has no field yet. */
  lemma PaddedExactly(raw: RawDoc, lower: string, tenors: seq<string>, f: string)
    requires SlimClass(raw, lower) && RowArgs(raw) != []
    ensures var h, h1 := HashOf(RowArgs(raw)), HashOf(Padded(raw, tenors));
            && (f in h1 <==> f in h || exists t :: t in tenors && IsPadName(raw, lower, t, f))
            && (f in h1 ==> h1[f] == if f in h then h[f] else Number(0.0))
  {
    PaddingIsConservative(raw, tenors, f);
    if f in HashOf(Padded(raw, tenors)) && f !in HashOf(RowArgs(raw)) {
      DeclaredOnly(ClassText(raw), PadLegs(raw.sensType), tenors, f);
      var t, leg :| t in tenors && leg in PadLegs(raw.sensType) && f == SlimPrefix(ClassText(raw), leg) + t;
      PadNames(raw, lower, t, f);
    }
    if t :| t in tenors && IsPadName(raw, lower, t, f) {
      PadNames(raw, lower, t, f);
    }
  }
}
