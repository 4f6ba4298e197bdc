/**
 The bulk loader's HASH fields for a row and the dense zero-padding of per-tenor classes:
 what padding keeps, what it adds, and that the figures computed from the row do not change.
 */
module Padding {
  import opened Json
  import opened Sums
  import opened Listing
  import opened Docs
  import opened HashForm
  import opened Oracles
  import E = EndToEnd
  import Curvature

  /** One field and value of the HSET argument list; later ones win. */
  type Arg = (string, HVal)

  function HashOf(args: seq<Arg>): Hash {
    if args == [] then map[] else HashOf(args[..|args| - 1])[args[|args| - 1].0 := args[|args| - 1].1]
  }

  predicate Names(args: seq<Arg>, name: string) { exists i :: 0 <= i < |args| && args[i].0 == name }

  lemma HashOfSnoc(args: seq<Arg>, a: Arg)
    ensures HashOf(args + [a]) == HashOf(args)[a.0 := a.1]
  {
    assert (args + [a])[..|args|] == args;
  }

  lemma {:induction false} HashOfNames(args: seq<Arg>, name: string)
    ensures name in HashOf(args) <==> Names(args, name)
  {
    if args != [] {
      var before := args[..|args| - 1];
      HashOfNames(before, name);
      assert forall i | 0 <= i < |before| :: before[i] == args[i];
      assert args[|args| - 1].0 == name ==> Names(args, name);
    }
  }

  // ------------------------------------------------------------ the row's own fields

  const TAG_NAMES := ["risk_class", "bucket", "sensitivity_type", "book", "trade_id", "risk_factor", "desk"]

  function TagOf(raw: RawDoc, k: string): Option<string> {
    if k == "risk_class" then raw.classTag
    else if k == "bucket" then raw.bucketTag else if k == "sensitivity_type" then raw.typeTag
    else if k in raw.tags then Some(raw.tags[k]) else None
  }

  /** An attribute that is present goes out, empty or not. */
  function TagArg(raw: RawDoc): string -> Option<Arg> {
    (k: string) => match TagOf(raw, k) case Some(v) => Some((k, Text(v))) case None => None
  }

  function TagArgs(raw: RawDoc): seq<Arg> { FilterMap(TagArg(raw), TAG_NAMES) }

  /** The class as the field names spell it, absent or not. */
  function ClassText(raw: RawDoc): string { if raw.classTag.Some? then raw.classTag.value else "undefined" }

  function SlimName(riskClass: string, leg: string): string { "s_" + Lower(riskClass) + "_" + leg }

  function SlimPrefix(riskClass: string, leg: string): string { SlimName(riskClass, leg) + "_" }

  function NumericArg(prefix: string): ((string, Json)) -> Option<Arg> {
    (f: (string, Json)) => if f.1.JNum? then Some((prefix + f.0, Number(f.1.n))) else None
  }

  /** Positions labelled with text; the others are dropped. */
  function Labelled(labels: seq<Json>, items: seq<Json>): seq<(string, Json)> {
    if labels == [] || items == [] then []
    else (if labels[0].JStr? then [(labels[0].s, items[0])] else []) + Labelled(labels[1..], items[1..])
  }

  function ValueLeg(sensType: string): string { if sensType == "Vega" then "vega" else "delta" }

  function ValueArgs(raw: RawDoc): seq<Arg> {
    var prefix := SlimPrefix(ClassText(raw), ValueLeg(raw.sensType));
    match raw.riskValue
    case JObj(fields) =>
      if E.LoneSpot(raw.riskValue) then [(SlimName(ClassText(raw), ValueLeg(raw.sensType)), Number(fields[0].1.n))]
      else FilterMap(NumericArg(prefix), fields)
    case JArr(items) => if raw.tenor.JArr? then FilterMap(NumericArg(prefix), Labelled(raw.tenor.items, items)) else []
    case JNum(v) => [(SlimName(ClassText(raw), ValueLeg(raw.sensType)), Number(v))]
    case _ => []
  }

  /** Both legs of one position, up before down. */
  function CvrPair(riskClass: string, text: Json, up: Json, down: Json): seq<Arg> {
    if !text.JStr? then []
    else (if up.JNum? then [(SlimPrefix(riskClass, "cvr_up") + text.s, Number(up.n))] else [])
         + (if down.JNum? then [(SlimPrefix(riskClass, "cvr_down") + text.s, Number(down.n))] else [])
  }

  function CvrPairs(riskClass: string, labels: seq<Json>, ups: seq<Json>, downs: seq<Json>, n: nat): seq<Arg>
    requires n <= |labels| && n <= |ups| && n <= |downs|
  {
    if n == 0 then []
    else CvrPairs(riskClass, labels, ups, downs, n - 1) + CvrPair(riskClass, labels[n - 1], ups[n - 1], downs[n - 1])
  }

  function CurvatureArgs(raw: RawDoc): seq<Arg> {
    if !raw.riskValue.JObj? then []
    else
      var up, down := Lookup(raw.riskValue.fields, "cvr_up"), Lookup(raw.riskValue.fields, "cvr_down");
      if up.JArr? && down.JArr? then
        if raw.tenor.JArr? then
          CvrPairs(ClassText(raw), raw.tenor.items, up.items, down.items,
              MinLength(|up.items|, |down.items|, |raw.tenor.items|))
        else []
      else if up.JNum? && down.JNum? then
        [(SlimName(ClassText(raw), "cvr_up"), Number(up.n)), (SlimName(ClassText(raw), "cvr_down"), Number(down.n))]
      else []
  }

  function RowArgs(raw: RawDoc): seq<Arg> {
    TagArgs(raw) + if raw.sensType == "Curvature" then CurvatureArgs(raw) else ValueArgs(raw)
  }

  // ------------------------------------------------------------ padding

  function PadLegs(sensType: string): seq<string> {
    if sensType == "Curvature" then ["cvr_up", "cvr_down"] else [ValueLeg(sensType)]
  }

  /** The per-tenor fields the class declares for a leg. */
  function LegNames(riskClass: string, leg: string, tenors: seq<string>): seq<string> {
    seq(|tenors|, i requires 0 <= i < |tenors| => SlimPrefix(riskClass, leg) + tenors[i])
  }

  function Declared(riskClass: string, legs: seq<string>, tenors: seq<string>): seq<string> {
    if legs == [] then []
    else Declared(riskClass, legs[..|legs| - 1], tenors) + LegNames(riskClass, legs[|legs| - 1], tenors)
  }

  function Fill(args: seq<Arg>, names: seq<string>): seq<Arg> {
    if names == [] then args
    else
      var before, name := Fill(args, names[..|names| - 1]), names[|names| - 1];
      if Names(before, name) then before else before + [(name, Number(0.0))]
  }

  function Padded(raw: RawDoc, tenors: seq<string>): seq<Arg> {
    if RowArgs(raw) == [] then [] else Fill(RowArgs(raw), Declared(ClassText(raw), PadLegs(raw.sensType), tenors))
  }

  /** The argument list keeps what it had, covers every name, and gains nothing but declared zeros. */
  lemma {:induction false} FillIsConservative(args: seq<Arg>, names: seq<string>, f: string)
    ensures args <= Fill(args, names)
    ensures f in HashOf(args) ==> f in HashOf(Fill(args, names)) && HashOf(Fill(args, names))[f] == HashOf(args)[f]
    ensures f in HashOf(Fill(args, names)) && f !in HashOf(args)
            ==> f in names && HashOf(Fill(args, names))[f] == Number(0.0)
    ensures f in names ==> f in HashOf(Fill(args, names))
  {
    if names != [] {
      var before, name := names[..|names| - 1], names[|names| - 1];
      assert names == before + [name];
      FillIsConservative(args, before, f);
      HashOfNames(Fill(args, before), f);
      HashOfNames(Fill(args, before), name);
      if !Names(Fill(args, before), name) { HashOfSnoc(Fill(args, before), (name, Number(0.0))); }
    }
  }

  lemma {:induction false} DeclaredCovers(riskClass: string, legs: seq<string>, tenors: seq<string>, leg: string,
      t: string)
    requires leg in legs && t in tenors
    ensures SlimPrefix(riskClass, leg) + t in Declared(riskClass, legs, tenors)
  {
    var before, last := legs[..|legs| - 1], legs[|legs| - 1];
    if leg == last {
      var i :| 0 <= i < |tenors| && tenors[i] == t;
      assert LegNames(riskClass, last, tenors)[i] == SlimPrefix(riskClass, leg) + t;
    } else {
      assert legs == before + [last];
      DeclaredCovers(riskClass, before, tenors, leg, t);
    }
  }

  /** On rows: every field kept, every declared tenor of the row's legs covered, only zeros added. */
  lemma PaddingIsConservative(raw: RawDoc, tenors: seq<string>, f: string)
    ensures f in HashOf(RowArgs(raw))
            ==> f in HashOf(Padded(raw, tenors)) && HashOf(Padded(raw, tenors))[f] == HashOf(RowArgs(raw))[f]
    ensures f in HashOf(Padded(raw, tenors)) && f !in HashOf(RowArgs(raw)) ==>
              f in Declared(ClassText(raw), PadLegs(raw.sensType), tenors)
              && HashOf(Padded(raw, tenors))[f] == Number(0.0)
    ensures RowArgs(raw) != [] ==> forall leg, t | leg in PadLegs(raw.sensType) && t in tenors ::
              SlimPrefix(ClassText(raw), leg) + t in HashOf(Padded(raw, tenors))
    ensures RowArgs(raw) == [] || tenors == [] ==> Padded(raw, tenors) == RowArgs(raw)
  {
    var names := Declared(ClassText(raw), PadLegs(raw.sensType), tenors);
    FillIsConservative(RowArgs(raw), names, f);
    forall leg, t | leg in PadLegs(raw.sensType) && t in tenors
      ensures SlimPrefix(ClassText(raw), leg) + t in HashOf(Fill(RowArgs(raw), names))
    {
      DeclaredCovers(ClassText(raw), PadLegs(raw.sensType), tenors, leg, t);
      FillIsConservative(RowArgs(raw), names, SlimPrefix(ClassText(raw), leg) + t);
    }
    if tenors == [] { NothingDeclared(ClassText(raw), PadLegs(raw.sensType)); }
  }

  lemma {:induction false} NothingDeclared(riskClass: string, legs: seq<string>)
    ensures Declared(riskClass, legs, []) == []
  {
    if legs != [] {
      NothingDeclared(riskClass, legs[..|legs| - 1]);
    }
  }

  // ------------------------------------------------------------ the loops

  method PushTags(raw: RawDoc) returns (args: seq<Arg>)
    ensures args == TagArgs(raw)
  {
    args := [];
    for i := 0 to |TAG_NAMES|
      invariant args == FilterMap(TagArg(raw), TAG_NAMES[..i])
    {
      assert TAG_NAMES[..i + 1] == TAG_NAMES[..i] + [TAG_NAMES[i]];
      FilterMapSnoc(TagArg(raw), TAG_NAMES[..i], TAG_NAMES[i]);
      var v := TagOf(raw, TAG_NAMES[i]);
      if v.Some? { args := args + [(TAG_NAMES[i], Text(v.value))]; }
    }
    assert TAG_NAMES[..|TAG_NAMES|] == TAG_NAMES;
  }

  method PushNumbers(args: seq<Arg>, prefix: string, fields: seq<(string, Json)>) returns (r: seq<Arg>)
    ensures r == args + FilterMap(NumericArg(prefix), fields)
  {
    r := args;
    for i := 0 to |fields|
      invariant r == args + FilterMap(NumericArg(prefix), fields[..i])
    {
      assert fields[..i + 1] == fields[..i] + [fields[i]];
      FilterMapSnoc(NumericArg(prefix), fields[..i], fields[i]);
      match fields[i].1 {
        case JNum(v) => r := r + [(prefix + fields[i].0, Number(v))];
        case _ =>
      }
    }
    assert fields[..|fields|] == fields;
  }

  method PushPairs(args: seq<Arg>, riskClass: string, labels: seq<Json>, ups: seq<Json>, downs: seq<Json>)
    returns (r: seq<Arg>)
    ensures r == args + CvrPairs(riskClass, labels, ups, downs, MinLength(|ups|, |downs|, |labels|))
  {
    r := args;
    var n := MinLength(|ups|, |downs|, |labels|);
    for i := 0 to n
      invariant r == args + CvrPairs(riskClass, labels, ups, downs, i)
    {
      r := r + CvrPair(riskClass, labels[i], ups[i], downs[i]);
    }
  }

  method PushCurvature(args: seq<Arg>, raw: RawDoc) returns (r: seq<Arg>)
    ensures r == args + CurvatureArgs(raw)
  {
    r := args;
    if !raw.riskValue.JObj? { return; }
    var up, down := Lookup(raw.riskValue.fields, "cvr_up"), Lookup(raw.riskValue.fields, "cvr_down");
    if up.JArr? && down.JArr? {
      if raw.tenor.JArr? { r := PushPairs(r, ClassText(raw), raw.tenor.items, up.items, down.items); }
    } else if up.JNum? && down.JNum? {
      r := r + [(SlimName(ClassText(raw), "cvr_up"), Number(up.n)),
          (SlimName(ClassText(raw), "cvr_down"), Number(down.n))];
    }
  }

  method PushValue(args: seq<Arg>, raw: RawDoc) returns (r: seq<Arg>)
    ensures r == args + ValueArgs(raw)
  {
    r := args;
    var leg := ValueLeg(raw.sensType);
    match raw.riskValue {
      case JObj(fields) =>
        if |fields| == 1 && fields[0].0 == "spot" && fields[0].1.JNum? {
          r := r + [(SlimName(ClassText(raw), leg), Number(fields[0].1.n))];
        } else {
          r := PushNumbers(r, SlimPrefix(ClassText(raw), leg), fields);
        }
      case JArr(items) =>
        if raw.tenor.JArr? { r := PushNumbers(r, SlimPrefix(ClassText(raw), leg), Labelled(raw.tenor.items, items)); }
      case JNum(v) => r := r + [(SlimName(ClassText(raw), leg), Number(v))];
      case _ =>
    }
  }

  ghost predicate Tracks(present: set<string>, args: seq<Arg>) { forall f :: f in present <==> Names(args, f) }

  lemma TracksSnoc(present: set<string>, args: seq<Arg>, a: Arg)
    requires Tracks(present, args)
    ensures Tracks(present + {a.0}, args + [a])
  {
    forall f ensures f in present + {a.0} <==> Names(args + [a], f) {
      if Names(args, f) {
        var i :| 0 <= i < |args| && args[i].0 == f;
        assert (args + [a])[i].0 == f;
      }
      assert (args + [a])[|args|] == a;
    }
  }

  method PadLeg(args: seq<Arg>, present: set<string>, riskClass: string, leg: string, tenors: seq<string>)
    returns (r: seq<Arg>, present': set<string>)
    requires Tracks(present, args)
    ensures r == Fill(args, LegNames(riskClass, leg, tenors)) && Tracks(present', r)
  {
    r, present' := args, present;
    ghost var names := LegNames(riskClass, leg, tenors);
    for i := 0 to |tenors|
      invariant r == Fill(args, names[..i]) && Tracks(present', r)
    {
      var name := SlimPrefix(riskClass, leg) + tenors[i];
      assert names[..i + 1][..i] == names[..i] && names[..i + 1][i] == name;
      if name !in present' {
        TracksSnoc(present', r, (name, Number(0.0)));
        r, present' := r + [(name, Number(0.0))], present' + {name};
      }
    }
    assert names[..|tenors|] == names;
  }

  lemma {:induction false} FillAppend(args: seq<Arg>, a: seq<string>, b: seq<string>)
    ensures Fill(args, a + b) == Fill(Fill(args, a), b)
  {
    if b == [] {
      assert a + b == a;
    } else {
      var before := b[..|b| - 1];
      FillAppend(args, a, before);
      assert (a + b)[..|a + b| - 1] == a + before;
    }
  }

  method CollectNames(args: seq<Arg>) returns (present: set<string>)
    ensures Tracks(present, args)
  {
    present := {};
    for i := 0 to |args|
      invariant Tracks(present, args[..i])
    {
      TracksSnoc(present, args[..i], args[i]);
      assert args[..i + 1] == args[..i] + [args[i]];
      present := present + {args[i].0};
    }
    assert args[..|args|] == args;
  }

  /** `tenors` is the class's declared list, empty for a scalar class. */
  method RowToHashFields(raw: RawDoc, tenors: seq<string>) returns (args: seq<Arg>)
    ensures args == Padded(raw, tenors)
  {
    args := PushTags(raw);
    if raw.sensType == "Curvature" { args := PushCurvature(args, raw); } else { args := PushValue(args, raw); }
    ghost var own := args;
    assert own == RowArgs(raw);
    if args == [] { return; }
    if tenors == [] {
      NothingDeclared(ClassText(raw), PadLegs(raw.sensType));
      return;
    }
    var present := CollectNames(args);
    var legs := PadLegs(raw.sensType);
    for i := 0 to |legs|
      invariant Tracks(present, args) && args == Fill(own, Declared(ClassText(raw), legs[..i], tenors))
    {
      assert legs[..i + 1][..i] == legs[..i];
      FillAppend(own, Declared(ClassText(raw), legs[..i], tenors), LegNames(ClassText(raw), legs[i], tenors));
      args, present := PadLeg(args, present, ClassText(raw), legs[i], tenors);
    }
    assert legs[..|legs|] == legs;
  }

  // ------------------------------------------------------------ figures read from the HASH

  /** A missing field reads as zero. */
  function Reading(h: Hash, name: string): real { if name in h && h[name].Number? then h[name].number else 0.0 }

  lemma PaddingKeepsReadings(raw: RawDoc, tenors: seq<string>, name: string)
    ensures Reading(HashOf(Padded(raw, tenors)), name) == Reading(HashOf(RowArgs(raw)), name)
  {
    PaddingIsConservative(raw, tenors, name);
  }

  lemma NumbersSnoc(base: seq<Arg>, prefix: string, before: seq<(string, Json)>, last: (string, Json), t: string)
    ensures var args, args' := base + FilterMap(NumericArg(prefix), before),
            base + FilterMap(NumericArg(prefix), before + [last]);
            Reading(HashOf(args'), prefix + t)
            == if last.0 == t && last.1.JNum? then last.1.n else Reading(HashOf(args), prefix + t)
  {
    FilterMapSnoc(NumericArg(prefix), before, last);
    SuffixesAgree(prefix, last.0, t);
    if last.1.JNum? {
      var args, a := base + FilterMap(NumericArg(prefix), before), (prefix + last.0, Number(last.1.n));
      assert base + FilterMap(NumericArg(prefix), before + [last]) == args + [a];
      HashOfSnoc(args, a);
    }
  }

  ghost predicate HasKey(fields: seq<(string, Json)>, t: string) { exists i :: 0 <= i < |fields| && fields[i].0 == t }

  lemma {:induction false} LookupSnoc(before: seq<(string, Json)>, last: (string, Json), t: string)
    requires !HasKey(before, last.0)
    ensures Lookup(before + [last], t) == if last.0 == t then last.1 else Lookup(before, t)
    ensures Lookup(before, last.0) == JNull
  {
    if before != [] {
      assert (before + [last])[1..] == before[1..] + [last];
      assert forall i | 0 <= i < |before[1..]| :: before[1..][i] == before[i + 1];
      assert before[0].0 != last.0;
      LookupSnoc(before[1..], last, t);
    }
  }

  lemma LastKeyIsNew(fields: seq<(string, Json)>)
    requires fields != [] && DistinctKeys(fields)
    ensures var before, last := fields[..|fields| - 1], fields[|fields| - 1];
            fields == before + [last] && DistinctKeys(before) && !HasKey(before, last.0)
  {
    var before := fields[..|fields| - 1];
    assert forall i | 0 <= i < |before| :: before[i] == fields[i];
  }

  lemma {:induction false} NumbersRead(base: seq<Arg>, prefix: string, fields: seq<(string, Json)>, t: string)
    requires DistinctKeys(fields) && !Names(base, prefix + t)
    ensures Reading(HashOf(base + FilterMap(NumericArg(prefix), fields)), prefix + t) == NumberOf(Lookup(fields, t))
  {
    if fields == [] {
      assert base + FilterMap(NumericArg(prefix), fields) == base;
      HashOfNames(base, prefix + t);
    } else {
      var before, last := fields[..|fields| - 1], fields[|fields| - 1];
      LastKeyIsNew(fields);
      NumbersRead(base, prefix, before, t);
      LookupSnoc(before, last, t);
      NumbersSnoc(base, prefix, before, last, t);
    }
  }

  lemma SuffixesAgree(prefix: string, a: string, b: string)
    ensures prefix + a == prefix + b <==> a == b
  {
    assert a == (prefix + a)[|prefix|..] && b == (prefix + b)[|prefix|..];
  }

  lemma TagsAreNotSlim(raw: RawDoc, leg: string, t: string)
    ensures !Names(TagArgs(raw), SlimPrefix(ClassText(raw), leg) + t)
  {
    var name := SlimPrefix(ClassText(raw), leg) + t;
    assert name[0] == 's' && name[1] == '_';
    forall i | 0 <= i < |TagArgs(raw)| ensures TagArgs(raw)[i].0 != name {
      FilterMapMembers(TagArg(raw), TAG_NAMES, TagArgs(raw)[i]);
      assert TagArgs(raw)[i] in TagArgs(raw);
      var j :| 0 <= j < |TAG_NAMES| && TagArg(raw)(TAG_NAMES[j]) == Some(TagArgs(raw)[i]);
      assert TagArgs(raw)[i].0 == TAG_NAMES[j];
      assert TAG_NAMES[j][0] != 's' || TAG_NAMES[j][1] != '_';
    }
  }

  /** A padded Delta row reads, tenor by tenor, as the reference reads the raw row. */
  lemma PaddedRowReadsAsReference(raw: RawDoc, tenors: seq<string>, k: nat)
    requires raw.sensType == "Delta" && raw.riskValue.JObj? && !E.LoneSpot(raw.riskValue)
             && DistinctKeys(raw.riskValue.fields) && k < |tenors|
    ensures Reading(HashOf(Padded(raw, tenors)), SlimPrefix(ClassText(raw), "delta") + tenors[k])
            == SensAt(raw, k, |tenors|, tenors)
  {
    var t := tenors[k];
    DeltaRowReads(raw, t);
    PaddingKeepsReadings(raw, tenors, SlimPrefix(ClassText(raw), "delta") + t);
  }

  lemma DeltaRowReads(raw: RawDoc, t: string)
    requires raw.sensType == "Delta" && raw.riskValue.JObj? && !E.LoneSpot(raw.riskValue)
             && DistinctKeys(raw.riskValue.fields)
    ensures Reading(HashOf(RowArgs(raw)), SlimPrefix(ClassText(raw), "delta") + t)
            == NumberOf(Lookup(raw.riskValue.fields, t))
  {
    var prefix := SlimPrefix(ClassText(raw), "delta");
    TagsAreNotSlim(raw, "delta", t);
    NumbersRead(TagArgs(raw), prefix, raw.riskValue.fields, t);
    assert RowArgs(raw) == TagArgs(raw) + FilterMap(NumericArg(prefix), raw.riskValue.fields);
  }

  // ------------------------------------------------------------ the GIRR reference on dense rows

  /** An object row with a zero for every declared tenor it lacks. */
  function DenseFields(fields: seq<(string, Json)>, tenors: seq<string>): seq<(string, Json)> {
    if tenors == [] then fields
    else
      var before, t := DenseFields(fields, tenors[..|tenors| - 1]), tenors[|tenors| - 1];
      if exists i :: 0 <= i < |before| && before[i].0 == t then before else before + [(t, JNum(0.0))]
  }

  function DenseRow(raw: RawDoc, tenors: seq<string>): RawDoc {
    if raw.riskValue.JObj? then raw.(riskValue := JObj(DenseFields(raw.riskValue.fields, tenors))) else raw
  }

  lemma {:induction false} DenseLookup(fields: seq<(string, Json)>, tenors: seq<string>, t: string)
    ensures NumberOf(Lookup(DenseFields(fields, tenors), t)) == NumberOf(Lookup(fields, t))
  {
    if tenors != [] {
      var rest, last := tenors[..|tenors| - 1], tenors[|tenors| - 1];
      DenseLookup(fields, rest, t);
      var before := DenseFields(fields, rest);
      if !(exists i :: 0 <= i < |before| && before[i].0 == last) {
        assert !HasKey(before, last);
        LookupSnoc(before, (last, JNum(0.0)), t);
      }
    }
  }

  function DenseRows(rows: seq<RawDoc>, tenors: seq<string>): seq<RawDoc> {
    seq(|rows|, i requires 0 <= i < |rows| => DenseRow(rows[i], tenors))
  }

  lemma DenseSens(raw: RawDoc, tenors: seq<string>, k: nat, size: nat)
    ensures SensAt(DenseRow(raw, tenors), k, size, tenors) == SensAt(raw, k, size, tenors)
    ensures CountedOf(size, tenors)(DenseRow(raw, tenors)) == CountedOf(size, tenors)(raw)
  {
    if raw.riskValue.JObj? && k < |tenors| { DenseLookup(raw.riskValue.fields, tenors, tenors[k]); }
  }

  lemma {:induction false} DenseSums(rows: seq<RawDoc>, tenors: seq<string>, k: nat, size: nat)
    ensures SumS(DenseRows(rows, tenors), k, size, tenors) == SumS(rows, k, size, tenors)
    ensures SumBy(CountedOf(size, tenors), DenseRows(rows, tenors)) == SumBy(CountedOf(size, tenors), rows)
  {
    if rows != [] {
      DenseSums(rows[1..], tenors, k, size);
      assert DenseRows(rows, tenors)[1..] == DenseRows(rows[1..], tenors);
      DenseSens(rows[0], tenors, k, size);
    }
  }

  /** Dense or sparse, the reference computes the same WS vector, hence the same S_b and K_b, and the same count. */
  lemma GirrReferenceIgnoresPadding(rows: seq<RawDoc>, weights: seq<real>, tenors: seq<string>)
    ensures TenorWs(DenseRows(rows, tenors), weights, tenors) == TenorWs(rows, weights, tenors)
    ensures SumBy(CountedOf(|weights|, tenors), DenseRows(rows, tenors)) == SumBy(CountedOf(|weights|, tenors), rows)
  {
    DenseSums(rows, tenors, 0, |weights|);
    forall k | 0 <= k < |weights|
      ensures TenorWs(DenseRows(rows, tenors), weights, tenors)[k] == TenorWs(rows, weights, tenors)[k]
    {
      DenseSums(rows, tenors, k, |weights|);
    }
  }

  // ------------------------------------------------------------ curvature on dense rows

  function ReadTenor(h: Hash, prefix: string): string -> Option<real> { (t: string) => NumberAt(h, prefix + t) }

  /** The CVRs of the tenors that are there. */
  function CvrVector(h: Hash, prefix: string, tenors: seq<string>): seq<real> {
    FilterMap(ReadTenor(h, prefix), tenors)
  }

  function DenseVector(h: Hash, prefix: string, tenors: seq<string>): seq<real> {
    seq(|tenors|, i requires 0 <= i < |tenors| => Reading(h, prefix + tenors[i]))
  }

  function Zeros(n: nat): seq<real> { seq(n, _ => 0.0) }

  /** The same values, but for zeros. */
  ghost predicate AddsZeros(dense: seq<real>, sparse: seq<real>) {
    |sparse| <= |dense| && multiset(dense) == multiset(sparse + Zeros(|dense| - |sparse|))
  }

  lemma OneMore(dense: seq<real>, sparse: seq<real>, zeros: seq<real>, x: real)
    requires multiset(dense) == multiset(sparse + zeros)
    ensures multiset(dense + [x]) == multiset((sparse + [x]) + zeros) == multiset(sparse + (zeros + [x]))
  {
    assert (sparse + zeros) + [x] == sparse + (zeros + [x]);
    assert multiset(sparse + [x] + zeros) == multiset(sparse) + multiset([x]) + multiset(zeros);
  }

  lemma ZerosSnoc(n: nat)
    ensures Zeros(n + 1) == Zeros(n) + [0.0]
  {
  }

  lemma AddsZero(dense: seq<real>, sparse: seq<real>)
    requires AddsZeros(dense, sparse)
    ensures AddsZeros(dense + [0.0], sparse)
  {
    OneMore(dense, sparse, Zeros(|dense| - |sparse|), 0.0);
    ZerosSnoc(|dense| - |sparse|);
  }

  lemma AddsZerosStep(dense: seq<real>, sparse: seq<real>, x: real)
    requires AddsZeros(dense, sparse)
    ensures AddsZeros(dense + [x], sparse + [x])
    ensures x == 0.0 ==> AddsZeros(dense + [x], sparse)
  {
    OneMore(dense, sparse, Zeros(|dense| - |sparse|), x);
    if x == 0.0 { AddsZero(dense, sparse); }
  }

  lemma VectorsSnoc(h: Hash, prefix: string, before: seq<string>, t: string)
    ensures DenseVector(h, prefix, before + [t]) == DenseVector(h, prefix, before) + [Reading(h, prefix + t)]
    ensures CvrVector(h, prefix, before + [t])
         == if NumberAt(h, prefix + t).Some? then CvrVector(h, prefix, before) + [Reading(h, prefix + t)]
            else CvrVector(h, prefix, before)
    ensures NumberAt(h, prefix + t).None? ==> Reading(h, prefix + t) == 0.0
  {
    FilterMapSnoc(ReadTenor(h, prefix), before, t);
  }

  lemma {:induction false} DenseIsSparsePlusZeros(h: Hash, prefix: string, tenors: seq<string>)
    ensures AddsZeros(DenseVector(h, prefix, tenors), CvrVector(h, prefix, tenors))
  {
    if tenors == [] {
      assert DenseVector(h, prefix, tenors) == [] && CvrVector(h, prefix, tenors) == [];
    } else {
      var before, t := tenors[..|tenors| - 1], tenors[|tenors| - 1];
      assert tenors == before + [t];
      DenseIsSparsePlusZeros(h, prefix, before);
      VectorsSnoc(h, prefix, before, t);
      AddsZerosStep(DenseVector(h, prefix, before), CvrVector(h, prefix, before), Reading(h, prefix + t));
    }
  }

  lemma CurvatureIgnoresMissing(h: Hash, prefix: string, tenors: seq<string>, rho: real)
    ensures Curvature.KbSquared(DenseVector(h, prefix, tenors), rho)
            == Curvature.KbSquared(CvrVector(h, prefix, tenors), rho)
  {
    DenseIsSparsePlusZeros(h, prefix, tenors);
    var sparse := CvrVector(h, prefix, tenors);
    var zeros := Zeros(|tenors| - |sparse|);
    Curvature.KbSquaredPermutation(DenseVector(h, prefix, tenors), sparse + zeros, rho);
    Curvature.KbSquaredZeroPadding(sparse, zeros, rho);
  }

  /** K_b squared of either curvature leg is the same before and after padding. */
  lemma CurvatureIgnoresPadding(raw: RawDoc, tenors: seq<string>, prefix: string, rho: real)
    ensures Curvature.KbSquared(CvrVector(HashOf(Padded(raw, tenors)), prefix, tenors), rho)
         == Curvature.KbSquared(CvrVector(HashOf(RowArgs(raw)), prefix, tenors), rho)
  {
    var padded, sparse := HashOf(Padded(raw, tenors)), HashOf(RowArgs(raw));
    CurvatureIgnoresMissing(padded, prefix, tenors, rho);
    CurvatureIgnoresMissing(sparse, prefix, tenors, rho);
    forall i | 0 <= i < |tenors|
      ensures DenseVector(padded, prefix, tenors)[i] == DenseVector(sparse, prefix, tenors)[i]
    {
      PaddingKeepsReadings(raw, tenors, prefix + tenors[i]);
    }
    assert DenseVector(padded, prefix, tenors) == DenseVector(sparse, prefix, tenors);
  }
}
