/** Flattening a document and rebuilding it: exactly when the rollups cannot tell the difference. */
module RoundTrip {
  import opened Json
  import opened Docs
  import opened Keys
  import opened Rollup
  import opened HashForm

  predicate KnownType(sensType: string) { sensType == "Delta" || sensType == "Vega" || sensType == "Curvature" }

  // ------------------------------------------------------------ the shapes enrichment produces

  /** Scalar and tenor figures come together, and both curvature legs carry the same tenors. */
  ghost predicate Enriched(d: Doc) {
    && (d.perTenor.Some? ==> d.value.Some?)
    && (d.cvrUp.Some? <==> d.cvrDown.Some?)
    && (d.cvrUpPerTenor.Some? <==> d.cvrDownPerTenor.Some?)
    && (d.cvrUpPerTenor.Some? ==> d.cvrUp.Some? && d.cvrUpPerTenor.value.Keys == d.cvrDownPerTenor.value.Keys)
  }

  lemma {:induction false} SameLabelsSameKeys(us: seq<Entry>, ds: seq<Entry>)
    requires |us| == |ds| && forall i | 0 <= i < |us| :: us[i].0 == ds[i].0
    ensures Written(us).Keys == Written(ds).Keys
  {
    if us != [] {
      SameLabelsSameKeys(us[..|us| - 1], ds[..|ds| - 1]);
    }
  }

  lemma EnrichShape(raw: RawDoc, schema: Schema)
    ensures Enriched(Enrich(raw, schema))
  {
    if raw.riskClass != "" && raw.riskClass in schema && raw.sensType == "Curvature" && raw.riskValue.JObj? {
      var cfg, fields := schema[raw.riskClass], raw.riskValue.fields;
      var up, down := Lookup(fields, "cvr_up"), Lookup(fields, "cvr_down");
      if up.JArr? && down.JArr? && cfg.tenorNodes.Some? {
        var nodes := cfg.tenorNodes.value;
        var n := MinLength(|up.items|, |down.items|, |nodes|);
        SameLabelsSameKeys(CvrEntries(nodes, up.items, n, cfg.table, raw.bucket),
            CvrEntries(nodes, down.items, n, cfg.table, raw.bucket));
      }
    }
  }

  // ------------------------------------------------------------ reading back a flattened document

  lemma HeaderOfMerge(base: Hash, d: Doc)
    requires HasGroup(d)
    ensures var h := Header(base + Flatten(d));
            h.riskClass == d.riskClass && h.bucket == d.bucket && h.sensType == d.sensType
  {
    NumberFieldNames(d);
    TagNames("risk_class");
    TagNames("bucket");
    TagNames("sensitivity_type");
    assert "risk_class" in TagFields(d) && "bucket" in TagFields(d) && "sensitivity_type" in TagFields(d);
  }

  lemma TagsCarryNoTenors(d: Doc, leg: string)
    ensures forall f | f in TagFields(d) :: !(TenorPrefix(d.riskClass, leg) <= f)
  {
    TagFieldNames(d);
    forall f | f in TagFields(d) ensures !(TenorPrefix(d.riskClass, leg) <= f) {
      WeightNames(d.riskClass, leg, f);
    }
  }

  lemma FlattenParts(tags: Hash, numbers: Hash, f: string)
    requires forall g | g in tags :: !IsWeightName(g)
    requires forall g | g in numbers :: IsWeightName(g)
    ensures f in tags + numbers <==> f in tags || f in numbers
    ensures f in numbers ==> (tags + numbers)[f] == numbers[f]
    ensures f in tags ==> f !in numbers && (tags + numbers)[f] == tags[f]
  {
  }

  /** Tags never look like weighted figures, so they never shadow one. */
  lemma FlattenSplits(d: Doc)
    ensures forall f :: f in Flatten(d) <==> f in TagFields(d) || f in NumberFields(d)
    ensures forall f | f in NumberFields(d) :: Flatten(d)[f] == NumberFields(d)[f]
    ensures forall f | f in TagFields(d) :: f !in NumberFields(d) && Flatten(d)[f] == TagFields(d)[f]
  {
    TagFieldNames(d);
    NumberFieldNames(d);
    forall f
      ensures f in Flatten(d) <==> f in TagFields(d) || f in NumberFields(d)
    {
      FlattenParts(TagFields(d), NumberFields(d), f);
    }
  }

  lemma TenorsOfValue(d: Doc)
    requires HasGroup(d) && Leg(d.sensType) != "" && d.sensType != "Curvature" && d.perTenor.Some?
    ensures TenorGroup(TenorPrefix(d.riskClass, Leg(d.sensType)), Flatten(d), d.perTenor.value)
  {
    FlattenSplits(d);
    TagsCarryNoTenors(d, Leg(d.sensType));
  }

  lemma TwoGroups(up: string, down: string, ups: Hash, downs: Hash, f: string)
    requires forall g | g in ups :: up <= g
    requires forall g | g in downs :: down <= g
    requires !(up <= f && down <= f)
    ensures f in ups + downs && up <= f ==> f in ups && (ups + downs)[f] == ups[f]
    ensures f in ups + downs && down <= f ==> f in downs && (ups + downs)[f] == downs[f]
    ensures f in ups ==> f in ups + downs && up <= f
    ensures f in downs ==> f in ups + downs && down <= f
  {
  }

  lemma TenorsOfCurvature(d: Doc)
    requires HasGroup(d) && d.sensType == "Curvature" && d.cvrUpPerTenor.Some? && d.cvrDownPerTenor.Some?
    ensures TenorGroup(TenorPrefix(d.riskClass, "cvr_up"), Flatten(d), d.cvrUpPerTenor.value)
    ensures TenorGroup(TenorPrefix(d.riskClass, "cvr_down"), Flatten(d), d.cvrDownPerTenor.value)
  {
    var up, down := TenorPrefix(d.riskClass, "cvr_up"), TenorPrefix(d.riskClass, "cvr_down");
    var ups, downs := Prefixed(up, d.cvrUpPerTenor.value), Prefixed(down, d.cvrDownPerTenor.value);
    FlattenSplits(d);
    TagsCarryNoTenors(d, "cvr_up");
    TagsCarryNoTenors(d, "cvr_down");
    assert NumberFields(d) == ups + downs;
    forall f
      ensures f in ups ==> f in Flatten(d) && Flatten(d)[f] == ups[f]
      ensures f in downs ==> f in Flatten(d) && Flatten(d)[f] == downs[f]
      ensures f in Flatten(d) && up <= f ==> f in ups
      ensures f in Flatten(d) && down <= f ==> f in downs
    {
      UpAndDownDiffer(d.riskClass, f);
      TwoGroups(up, down, ups, downs, f);
    }
  }

  // ------------------------------------------------------------ scalar documents, merged into an existing HASH

  /** A document with scalar figures only: the Equity and FX convention. */
  predicate ScalarDoc(d: Doc) {
    && HasGroup(d) && KnownType(d.sensType)
    && (if d.sensType == "Curvature"
       then d.cvrUp.Some? && d.cvrDown.Some? && d.cvrUpPerTenor.None? && d.cvrDownPerTenor.None?
        else d.value.Some? && d.perTenor.None?)
  }

  /** Not a per-tenor field of the class. */
  predicate NoTenorName(riskClass: string, f: string) {
    && !(TenorPrefix(riskClass, "delta") <= f) && !(TenorPrefix(riskClass, "vega") <= f)
    && !(TenorPrefix(riskClass, "cvr_up") <= f) && !(TenorPrefix(riskClass, "cvr_down") <= f)
  }

  /** A HASH that holds no per-tenor field of the class. */
  ghost predicate NoTenorFields(h: Hash, riskClass: string) { forall f | f in h :: NoTenorName(riskClass, f) }

  /** The part of a document the rollups look at. */
  predicate SameFigures(d: Doc, e: Doc) {
    && d.riskClass == e.riskClass && d.bucket == e.bucket && d.sensType == e.sensType
    && (if d.sensType == "Curvature" then
          d.cvrUp == e.cvrUp && d.cvrDown == e.cvrDown && d.cvrUpPerTenor == e.cvrUpPerTenor
          && d.cvrDownPerTenor == e.cvrDownPerTenor
        else d.value == e.value && d.perTenor == e.perTenor)
  }

  lemma SameFiguresSameContribution(d: Doc, e: Doc, s: Slot)
    requires SameFigures(d, e)
    ensures Contribution(d, s) == Contribution(e, s)
  {
  }

  predicate IsLeg(leg: string) { leg == "delta" || leg == "vega" || leg == "cvr_up" || leg == "cvr_down" }

  lemma LegsArePrefixFree(leg: string, leg': string)
    requires IsLeg(leg) && IsLeg(leg')
    ensures !(leg + "_" <= leg')
  {
    assert (leg + "_")[0] == leg[0];
    assert leg == "cvr_up" ==> (leg + "_")[4] == 'u';
    assert leg' == "cvr_down" ==> leg'[4] == 'd';
    assert leg[0] == leg'[0] ==> leg == leg' || (|leg| > 5 && |leg'| > 5);
  }

  lemma ScalarNameIsNoTenorName(riskClass: string, leg: string, leg': string)
    requires IsLeg(leg) && IsLeg(leg')
    ensures !(TenorPrefix(riskClass, leg) <= FieldName(riskClass, leg'))
  {
    var stem := "ws_" + Lower(riskClass) + "_";
    var p, f := TenorPrefix(riskClass, leg), FieldName(riskClass, leg');
    assert p == stem + (leg + "_");
    assert f == stem + leg';
    if p <= f {
      assert f[|stem|..] == leg';
      assert f[|stem|..|p|] == leg + "_";
      LegsArePrefixFree(leg, leg');
    }
  }

  lemma ScalarNames(riskClass: string)
    ensures FieldName(riskClass, "cvr_up") != FieldName(riskClass, "cvr_down")
    ensures forall leg | IsLeg(leg) :: NoTenorName(riskClass, FieldName(riskClass, leg))
  {
    forall leg | IsLeg(leg) ensures NoTenorName(riskClass, FieldName(riskClass, leg)) {
      ScalarNameIsNoTenorName(riskClass, "delta", leg);
      ScalarNameIsNoTenorName(riskClass, "vega", leg);
      ScalarNameIsNoTenorName(riskClass, "cvr_up", leg);
      ScalarNameIsNoTenorName(riskClass, "cvr_down", leg);
    }
    var stem := "ws_" + Lower(riskClass) + "_";
    assert FieldName(riskClass, "cvr_up")[|stem|..] == "cvr_up";
    assert FieldName(riskClass, "cvr_down")[|stem|..] == "cvr_down";
  }

  lemma TagNamesNoTenor(d: Doc)
    ensures forall f | f in TagFields(d) :: NoTenorName(d.riskClass, f)
  {
    TagsCarryNoTenors(d, "delta");
    TagsCarryNoTenors(d, "vega");
    TagsCarryNoTenors(d, "cvr_up");
    TagsCarryNoTenors(d, "cvr_down");
  }

  /** HSET of a scalar document keeps a HASH free of tenor fields. */
  lemma ScalarMergeHasNoTenors(base: Hash, d: Doc)
    requires ScalarDoc(d) && NoTenorFields(base, d.riskClass)
    ensures NoTenorFields(base + Flatten(d), d.riskClass)
  {
    ScalarNames(d.riskClass);
    TagNamesNoTenor(d);
    FlattenSplits(d);
    forall f | f in base + Flatten(d) ensures NoTenorName(d.riskClass, f) {
      if f in Flatten(d) && f in NumberFields(d) {
        assert exists leg :: IsLeg(leg) && f == FieldName(d.riskClass, leg) by { ScalarNumberNames(d, f); }
      }
    }
  }

  lemma ScalarNumberNames(d: Doc, f: string)
    requires ScalarDoc(d) && f in NumberFields(d)
    ensures exists leg :: IsLeg(leg) && f == FieldName(d.riskClass, leg)
  {
    if d.sensType == "Curvature" {
      assert IsLeg("cvr_up") && IsLeg("cvr_down");
    } else {
      assert IsLeg(Leg(d.sensType));
    }
  }

  lemma NoTenorFieldsStrip(h: Hash, riskClass: string)
    requires NoTenorFields(h, riskClass)
    ensures Stripped(TenorPrefix(riskClass, "delta"), h) == map[]
            && Stripped(TenorPrefix(riskClass, "vega"), h) == map[]
    ensures Stripped(TenorPrefix(riskClass, "cvr_up"), h) == map[]
            && Stripped(TenorPrefix(riskClass, "cvr_down"), h) == map[]
  {
    StrippedNothing(TenorPrefix(riskClass, "delta"), h);
    StrippedNothing(TenorPrefix(riskClass, "vega"), h);
    StrippedNothing(TenorPrefix(riskClass, "cvr_up"), h);
    StrippedNothing(TenorPrefix(riskClass, "cvr_down"), h);
  }

  lemma ScalarNumbers(base: Hash, d: Doc)
    requires ScalarDoc(d)
    ensures var h := base + Flatten(d);
            if d.sensType == "Curvature" then
              NumberAt(h, FieldName(d.riskClass, "cvr_up")) == d.cvrUp
              && NumberAt(h, FieldName(d.riskClass, "cvr_down")) == d.cvrDown
            else NumberAt(h, FieldName(d.riskClass, Leg(d.sensType))) == d.value
  {
    FlattenSplits(d);
    if d.sensType == "Curvature" {
      var up, down := FieldName(d.riskClass, "cvr_up"), FieldName(d.riskClass, "cvr_down");
      ScalarNames(d.riskClass);
      assert up in NumberFields(d) && down in NumberFields(d);
    } else {
      assert FieldName(d.riskClass, Leg(d.sensType)) in NumberFields(d);
    }
  }

  /** Rebuilding a HASH after an HSET of a scalar document gives that document's figures. */
  lemma ScalarMergeReconstructs(base: Hash, d: Doc)
    requires ScalarDoc(d) && NoTenorFields(base, d.riskClass)
    ensures SameFigures(Reconstruct(base + Flatten(d)), d)
  {
    HeaderOfMerge(base, d);
    ScalarMergeHasNoTenors(base, d);
    NoTenorFieldsStrip(base + Flatten(d), d.riskClass);
    ScalarNumbers(base, d);
  }

  // ------------------------------------------------------------ the round trip

  /** A tenor map the HASH can carry: not empty, and its values add up to the scalar figure. */
  ghost predicate Carries(m: TenorMap, total: real) { m != map[] && TenorTotal(m) == total }

  ghost predicate Faithful(d: Doc) {
    if d.sensType == "Curvature" then
      d.cvrUpPerTenor.Some? && d.cvrDownPerTenor.Some? && d.cvrUp.Some? && d.cvrDown.Some? ==>
        Carries(d.cvrUpPerTenor.value, d.cvrUp.value) && Carries(d.cvrDownPerTenor.value, d.cvrDown.value)
    else d.perTenor.Some? && d.value.Some? ==> Carries(d.perTenor.value, d.value.value)
  }

  ghost predicate RoundTrips(d: Doc) {
    forall s :: Contribution(Reconstruct(Flatten(d)), s) == Contribution(d, s)
  }

  function BaseSlot(d: Doc, f: Field): Slot { Slot(BaseKey(GroupOf(d)), f) }

  lemma ScalarRoundTrip(d: Doc)
    requires HasGroup(d) && KnownType(d.sensType) && Enriched(d)
    requires if d.sensType == "Curvature" then d.cvrUpPerTenor.None? else d.perTenor.None?
    ensures RoundTrips(d)
  {
    assert map[] + Flatten(d) == Flatten(d);
    if ScalarDoc(d) {
      ScalarMergeReconstructs(map[], d);
    } else {
      NothingReconstructs(d);
    }
    forall s ensures Contribution(Reconstruct(Flatten(d)), s) == Contribution(d, s) {
      SameFiguresSameContribution(Reconstruct(Flatten(d)), d, s);
    }
  }

  lemma NothingReconstructs(d: Doc)
    requires HasGroup(d) && KnownType(d.sensType)
    requires if d.sensType == "Curvature"
             then d.cvrUpPerTenor.None? && d.cvrDownPerTenor.None? && d.cvrUp.None? && d.cvrDown.None?
             else d.perTenor.None? && d.value.None?
    ensures SameFigures(Reconstruct(Flatten(d)), d)
  {
    HeaderOfMerge(map[], d);
    assert map[] + Flatten(d) == Flatten(d);
    assert NumberFields(d) == map[];
    FlattenSplits(d);
    TagNamesNoTenor(d);
    NoTenorFieldsStrip(Flatten(d), d.riskClass);
    NoScalarTag(d, "delta");
    NoScalarTag(d, "vega");
    NoScalarTag(d, "cvr_up");
    NoScalarTag(d, "cvr_down");
  }

  lemma NoScalarTag(d: Doc, leg: string)
    ensures FieldName(d.riskClass, leg) !in TagFields(d)
  {
    TagFieldNames(d);
    WeightNames(d.riskClass, leg, "");
  }

  lemma ValueReconstructs(d: Doc)
    requires HasGroup(d) && (d.sensType == "Delta" || d.sensType == "Vega") && d.perTenor.Some?
    ensures var r, m := Reconstruct(Flatten(d)), d.perTenor.value;
            && r.riskClass == d.riskClass && r.bucket == d.bucket && r.sensType == d.sensType
            && (if m == map[] then r.value.None? else r.perTenor == Some(m) && r.value == Some(TenorTotal(m)))
  {
    var m := d.perTenor.value;
    HeaderOfMerge(map[], d);
    assert map[] + Flatten(d) == Flatten(d);
    TenorsOfValue(d);
    StrippedPrefixed(TenorPrefix(d.riskClass, Leg(d.sensType)), Flatten(d), m);
    if m == map[] {
      assert FieldName(d.riskClass, Leg(d.sensType)) !in Flatten(d) by {
        FlattenSplits(d);
        NoScalarTag(d, Leg(d.sensType));
      }
    }
  }

  /** Two documents of one group that differ in their scalar figure differ in a base field. */
  lemma ValueTold(d: Doc, r: Doc)
    requires HasGroup(d) && d.sensType != "Curvature" && d.value.Some?
    requires r.riskClass == d.riskClass && r.bucket == d.bucket && r.sensType == d.sensType && r.value != d.value
    ensures exists s :: Contribution(r, s) != Contribution(d, s)
  {
    var f := if r.value.None? then Count else SumWs;
    assert Contribution(r, BaseSlot(d, f)) != Contribution(d, BaseSlot(d, f));
  }

  lemma ValueRoundTrip(d: Doc)
    requires HasGroup(d) && (d.sensType == "Delta" || d.sensType == "Vega") && d.perTenor.Some? && d.value.Some?
    ensures RoundTrips(d) <==> Carries(d.perTenor.value, d.value.value)
  {
    var r := Reconstruct(Flatten(d));
    ValueReconstructs(d);
    if Carries(d.perTenor.value, d.value.value) {
      forall s ensures Contribution(r, s) == Contribution(d, s) { SameFiguresSameContribution(r, d, s); }
    } else {
      ValueTold(d, r);
    }
  }

  lemma CurvatureReconstructs(d: Doc)
    requires HasGroup(d) && d.sensType == "Curvature" && Enriched(d) && d.cvrUpPerTenor.Some?
    ensures var r, ups, downs := Reconstruct(Flatten(d)), d.cvrUpPerTenor.value, d.cvrDownPerTenor.value;
            && r.riskClass == d.riskClass && r.bucket == d.bucket && r.sensType == d.sensType
            && (ups == map[] <==> downs == map[])
            && (if ups == map[] then r.cvrUp.None?
                else r.cvrUpPerTenor == Some(ups) && r.cvrDownPerTenor == Some(downs)
                     && r.cvrUp == Some(TenorTotal(ups)) && r.cvrDown == Some(TenorTotal(downs)))
  {
    var ups, downs := d.cvrUpPerTenor.value, d.cvrDownPerTenor.value;
    HeaderOfMerge(map[], d);
    assert map[] + Flatten(d) == Flatten(d);
    TenorsOfCurvature(d);
    StrippedPrefixed(TenorPrefix(d.riskClass, "cvr_up"), Flatten(d), ups);
    StrippedPrefixed(TenorPrefix(d.riskClass, "cvr_down"), Flatten(d), downs);
    assert ups == map[] <==> downs == map[] by { assert ups.Keys == downs.Keys; }
    if ups == map[] {
      assert FieldName(d.riskClass, "cvr_up") !in Flatten(d) by {
        assert NumberFields(d) == map[];
        FlattenSplits(d);
        NoScalarTag(d, "cvr_up");
      }
    }
  }

  lemma CurvatureCarried(d: Doc)
    requires HasGroup(d) && d.sensType == "Curvature" && Enriched(d) && d.cvrUpPerTenor.Some?
    requires Carries(d.cvrUpPerTenor.value, d.cvrUp.value) && Carries(d.cvrDownPerTenor.value, d.cvrDown.value)
    ensures RoundTrips(d)
  {
    CurvatureReconstructs(d);
    assert SameFigures(Reconstruct(Flatten(d)), d);
    forall s ensures Contribution(Reconstruct(Flatten(d)), s) == Contribution(d, s) {
      SameFiguresSameContribution(Reconstruct(Flatten(d)), d, s);
    }
  }

  lemma CurvatureBase(d: Doc, f: Field)
    requires HasGroup(d) && d.sensType == "Curvature"
    ensures Contribution(d, BaseSlot(d, f))
            == if d.cvrUp.Some? && d.cvrDown.Some? then CurvatureField(d.cvrUp.value, d.cvrDown.value, f) else 0.0
  {
  }

  /** Two curvature documents of one group that differ in their base figures differ in a base field. */
  lemma CurvatureTold(d: Doc, r: Doc)
    requires HasGroup(d) && d.sensType == "Curvature" && d.cvrUp.Some? && d.cvrDown.Some?
    requires r.riskClass == d.riskClass && r.bucket == d.bucket && r.sensType == d.sensType
    requires r.cvrUp.None? || (r.cvrDown.Some? && (r.cvrUp != d.cvrUp || r.cvrDown != d.cvrDown))
    ensures exists s :: Contribution(r, s) != Contribution(d, s)
  {
    var f := if r.cvrUp.None? then Count else if r.cvrUp != d.cvrUp then SumWsUp else SumWsDown;
    CurvatureBase(d, f);
    CurvatureBase(r, f);
    assert BaseSlot(r, f) == BaseSlot(d, f);
    assert Contribution(r, BaseSlot(d, f)) != Contribution(d, BaseSlot(d, f));
  }

  lemma CurvatureNotCarried(d: Doc)
    requires HasGroup(d) && d.sensType == "Curvature" && Enriched(d) && d.cvrUpPerTenor.Some?
    requires !Carries(d.cvrUpPerTenor.value, d.cvrUp.value) || !Carries(d.cvrDownPerTenor.value, d.cvrDown.value)
    ensures !RoundTrips(d)
  {
    CurvatureReconstructs(d);
    CurvatureTold(d, Reconstruct(Flatten(d)));
  }

  lemma CurvatureRoundTrip(d: Doc)
    requires HasGroup(d) && d.sensType == "Curvature" && Enriched(d) && d.cvrUpPerTenor.Some?
    ensures RoundTrips(d)
       <==> Carries(d.cvrUpPerTenor.value, d.cvrUp.value) && Carries(d.cvrDownPerTenor.value, d.cvrDown.value)
  {
    if Carries(d.cvrUpPerTenor.value, d.cvrUp.value) && Carries(d.cvrDownPerTenor.value, d.cvrDown.value) {
      CurvatureCarried(d);
    } else {
      CurvatureNotCarried(d);
    }
  }

  /** A stored document counts for the backfill exactly as it did for ingest iff its tenors carry its scalar figures. */
  lemma RoundTripExactly(d: Doc)
    requires HasGroup(d) && KnownType(d.sensType) && Enriched(d)
    ensures RoundTrips(d) <==> Faithful(d)
  {
    if d.sensType == "Curvature" {
      if d.cvrUpPerTenor.Some? { CurvatureRoundTrip(d); } else { ScalarRoundTrip(d); }
    } else {
      if d.perTenor.Some? { ValueRoundTrip(d); } else { ScalarRoundTrip(d); }
    }
  }

  /** A document outside every group counts nowhere, before and after. */
  lemma NoGroupRoundTrips(d: Doc)
    requires !HasGroup(d)
    ensures RoundTrips(d)
  {
    NumberFieldNames(d);
    TagNames("risk_class");
    TagNames("bucket");
    TagNames("sensitivity_type");
    assert !HasGroup(Reconstruct(Flatten(d)));
  }

  /** Other sensitivity types are rolled up by ingest but have no HASH field, so their figures are lost. */
  lemma OtherTypeRoundTrip(d: Doc)
    requires HasGroup(d) && !KnownType(d.sensType) && Enriched(d)
    ensures RoundTrips(d) <==> d.value.None?
  {
    HeaderOfMerge(map[], d);
    assert map[] + Flatten(d) == Flatten(d);
    var r := Reconstruct(Flatten(d));
    assert r.value.None? && r.perTenor.None?;
    if d.value.Some? {
      assert Contribution(r, BaseSlot(d, Count)) == 0.0 && Contribution(d, BaseSlot(d, Count)) == 1.0;
    }
  }

  // ------------------------------------------------------------ the same condition on the raw row

  /** The weighted tenor entries a row is written from, one list per leg; none for a scalar row. */
  function LegEntries(raw: RawDoc, schema: Schema): seq<seq<Entry>> {
    if raw.riskClass == "" || raw.riskClass !in schema then []
    else
      var cfg := schema[raw.riskClass];
      if raw.sensType == "Curvature" then
        if !raw.riskValue.JObj? then []
        else
          var up, down := Lookup(raw.riskValue.fields, "cvr_up"), Lookup(raw.riskValue.fields, "cvr_down");
          if up.JArr? && down.JArr? && cfg.tenorNodes.Some? then
            var nodes := cfg.tenorNodes.value;
            var n := MinLength(|up.items|, |down.items|, |nodes|);
            [CvrEntries(nodes, up.items, n, cfg.table, raw.bucket),
                CvrEntries(nodes, down.items, n, cfg.table, raw.bucket)]
          else []
      else match raw.riskValue
        case JObj(fields) =>
          if |fields| == 1 && fields[0].0 == "spot" && fields[0].1.JNum? then []
          else [FieldEntries(fields, raw.sensType, cfg.table, raw.bucket)]
        case JArr(items) =>
          (match ArrayLabels(raw.tenor, cfg.tenorNodes)
           case Some(labels) => [FieldEntries(Zip(labels, items), raw.sensType, cfg.table, raw.bucket)]
           case None => [])
        case _ => []
  }

  lemma CarriesExactly(entries: seq<Entry>)
    ensures Carries(Written(entries), Added(entries)) <==> entries != [] && Overwritten(entries) == 0.0
  {
    AddedIsTotalPlusOverwritten(entries);
    WrittenKeys(entries);
    if entries != [] {
      assert entries[0].0 in Written(entries);
    }
  }

  lemma FaithfulCurvature(raw: RawDoc, schema: Schema)
    requires raw.riskClass != "" && raw.sensType == "Curvature"
    ensures Faithful(Enrich(raw, schema))
       <==> forall i | 0 <= i < |LegEntries(raw, schema)| ::
              Carries(Written(LegEntries(raw, schema)[i]), Added(LegEntries(raw, schema)[i]))
  {
    var legs := LegEntries(raw, schema);
    if |legs| == 2 {
      assert Enrich(raw, schema).cvrUpPerTenor == Some(Written(legs[0]));
      assert Enrich(raw, schema).cvrDownPerTenor == Some(Written(legs[1]));
    }
  }

  lemma FaithfulValue(raw: RawDoc, schema: Schema)
    requires raw.riskClass != "" && raw.sensType != "Curvature"
    ensures Faithful(Enrich(raw, schema))
       <==> forall i | 0 <= i < |LegEntries(raw, schema)| ::
              Carries(Written(LegEntries(raw, schema)[i]), Added(LegEntries(raw, schema)[i]))
  {
    var legs, d := LegEntries(raw, schema), Enrich(raw, schema);
    if |legs| == 1 {
      assert d.perTenor == Some(Written(legs[0])) && d.value == Some(Added(legs[0]));
    } else {
      assert d.perTenor.None? && legs == [];
    }
  }

  /** On rows: every leg needs at least one numeric tenor, and nothing of value may be overwritten. */
  lemma RowRoundTripExactly(raw: RawDoc, schema: Schema)
    requires raw.riskClass != "" && raw.bucket != "" && KnownType(raw.sensType)
    ensures RoundTrips(Enrich(raw, schema))
       <==> forall i | 0 <= i < |LegEntries(raw, schema)| ::
              LegEntries(raw, schema)[i] != [] && Overwritten(LegEntries(raw, schema)[i]) == 0.0
  {
    EnrichShape(raw, schema);
    EnrichKeepsGroup(raw, schema);
    RoundTripExactly(Enrich(raw, schema));
    if raw.sensType == "Curvature" { FaithfulCurvature(raw, schema); } else { FaithfulValue(raw, schema); }
    forall i | 0 <= i < |LegEntries(raw, schema)|
      ensures Carries(Written(LegEntries(raw, schema)[i]), Added(LegEntries(raw, schema)[i]))
         <==> LegEntries(raw, schema)[i] != [] && Overwritten(LegEntries(raw, schema)[i]) == 0.0
    {
      CarriesExactly(LegEntries(raw, schema)[i]);
    }
  }

  /** In particular, distinct labels and a tenor on every leg are enough. */
  lemma DistinctTenorsRoundTrip(raw: RawDoc, schema: Schema)
    requires raw.riskClass != "" && raw.bucket != "" && KnownType(raw.sensType)
    requires forall i | 0 <= i < |LegEntries(raw, schema)| ::
               LegEntries(raw, schema)[i] != [] && DistinctLabels(LegEntries(raw, schema)[i])
    ensures RoundTrips(Enrich(raw, schema))
  {
    RowRoundTripExactly(raw, schema);
    forall i | 0 <= i < |LegEntries(raw, schema)| ensures Overwritten(LegEntries(raw, schema)[i]) == 0.0 {
      DistinctLabelsOverwriteNothing(LegEntries(raw, schema)[i]);
    }
  }
}
