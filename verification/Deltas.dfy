/**
 Re-ingestion. Before a row is written again, ingest reads the HASH already stored under
 its id, works out what that HASH had contributed, and sends only the difference.
 */
module Deltas {
  import opened Json
  import opened Sums
  import opened Docs
  import opened Keys
  import opened Rollup
  import opened HashForm
  import opened RoundTrip

  datatype OldContribution = OldContribution(
    stored: bool, scalarWs: Option<real>, perTenorWs: Option<TenorMap>,
    scalarCvrUp: Option<real>, scalarCvrDown: Option<real>, perTenorCvrUp: Option<TenorMap>,
    perTenorCvrDown: Option<TenorMap>)

  function NonEmpty(m: TenorMap): Option<TenorMap> { if m == map[] then None else Some(m) }

  /** What the stored HASH says it contributed: scalar fields and tenor fields are looked up independently. */
  function ParseOld(h: Hash, riskClass: string, sensType: string): OldContribution {
    var none := OldContribution(h != map[], None, None, None, None, None, None);
    if h == map[] || riskClass == "" || sensType == "" then none
    else if sensType == "Curvature" then
      none.(scalarCvrUp := NumberAt(h, FieldName(riskClass, "cvr_up")),
          scalarCvrDown := NumberAt(h, FieldName(riskClass, "cvr_down")),
            perTenorCvrUp := NonEmpty(Stripped(TenorPrefix(riskClass, "cvr_up"), h)),
            perTenorCvrDown := NonEmpty(Stripped(TenorPrefix(riskClass, "cvr_down"), h)))
    else if Leg(sensType) == "" then none
    else
      none.(scalarWs := NumberAt(h, FieldName(riskClass, Leg(sensType))),
            perTenorWs := NonEmpty(Stripped(TenorPrefix(riskClass, Leg(sensType)), h)))
  }

  method ParseOldContribution(h: Hash, riskClass: string, sensType: string) returns (r: OldContribution)
    ensures r == ParseOld(h, riskClass, sensType)
  {
    r := OldContribution(h != map[], None, None, None, None, None, None);
    if h == map[] || riskClass == "" || sensType == "" { return; }
    if sensType == "Curvature" {
      var ups := CollectTenors(TenorPrefix(riskClass, "cvr_up"), h);
      var downs := CollectTenors(TenorPrefix(riskClass, "cvr_down"), h);
      r := r.(scalarCvrUp := NumberAt(h, FieldName(riskClass, "cvr_up")),
          scalarCvrDown := NumberAt(h, FieldName(riskClass, "cvr_down")),
              perTenorCvrUp := NonEmpty(ups), perTenorCvrDown := NonEmpty(downs));
      return;
    }
    if Leg(sensType) == "" { return; }
    var m := CollectTenors(TenorPrefix(riskClass, Leg(sensType)), h);
    r := r.(scalarWs := NumberAt(h, FieldName(riskClass, Leg(sensType))), perTenorWs := NonEmpty(m));
  }

  // ------------------------------------------------------------ the difference sent

  function OrZero(v: Option<real>): real { if v.Some? then v.value else 0.0 }

  function OrEmpty(m: Option<TenorMap>): TenorMap { if m.Some? then m.value else map[] }

  function AtOrZero(m: TenorMap, t: string): real { if t in m then m[t] else 0.0 }

  /** The count moves only for a row that was not stored before. */
  function ScalarChange(v: real, v0: real, isNew: bool, f: Field): real {
    if f == Count then (if isNew then 1.0 else 0.0) else ScalarField(v, f) - ScalarField(v0, f)
  }

  function CurvatureChange(u: real, d: real, u0: real, d0: real, isNew: bool, f: Field): real {
    if f == Count then (if isNew then 1.0 else 0.0) else CurvatureField(u, d, f) - CurvatureField(u0, d0, f)
  }

  function ScalarTenors(prior: OldContribution, d: Doc): set<string> {
    if d.perTenor.Some? then d.perTenor.value.Keys + OrEmpty(prior.perTenorWs).Keys else {}
  }

  function CurvatureTenors(prior: OldContribution, d: Doc): set<string> {
    if d.cvrUpPerTenor.Some? && d.cvrDownPerTenor.Some? then
      d.cvrUpPerTenor.value.Keys + OrEmpty(prior.perTenorCvrUp).Keys + d.cvrDownPerTenor.value.Keys
      + OrEmpty(prior.perTenorCvrDown).Keys
    else {}
  }

  function BaseChange(prior: OldContribution, d: Doc, f: Field): real {
    if d.sensType == "Curvature" then
      if d.cvrUp.Some? && d.cvrDown.Some? then
        CurvatureChange(d.cvrUp.value, d.cvrDown.value, OrZero(prior.scalarCvrUp), OrZero(prior.scalarCvrDown),
            !prior.stored, f)
      else 0.0
    else if d.value.Some? then ScalarChange(d.value.value, OrZero(prior.scalarWs), !prior.stored, f) else 0.0
  }

  function TenorChange(prior: OldContribution, d: Doc, t: string, f: Field): real {
    if d.sensType == "Curvature" then
      if t in CurvatureTenors(prior, d) then
        CurvatureChange(AtOrZero(OrEmpty(d.cvrUpPerTenor), t), AtOrZero(OrEmpty(d.cvrDownPerTenor), t),
                        AtOrZero(OrEmpty(prior.perTenorCvrUp), t), AtOrZero(OrEmpty(prior.perTenorCvrDown), t),
                            !prior.stored, f)
      else 0.0
    else if t in ScalarTenors(prior, d) then
      ScalarChange(AtOrZero(OrEmpty(d.perTenor), t), AtOrZero(OrEmpty(prior.perTenorWs), t), !prior.stored, f)
    else 0.0
  }

  function Change(prior: OldContribution, d: Doc, s: Slot): real {
    match PlaceOf(d, s.key)
    case Outside => 0.0
    case Base => BaseChange(prior, d, s.field)
    case At(t) => TenorChange(prior, d, t, s.field)
  }

  /** The difference a row `d` sends when `h` was stored under its id. */
  function Sent(h: Hash, d: Doc, s: Slot): real { Change(ParseOld(h, d.riskClass, d.sensType), d, s) }

  // ------------------------------------------------------------ emitting it

  function ScalarDeltas(k: string, v: real, v0: real, isNew: bool): seq<Incr> {
    [Incr(Slot(k, SumWs), v - v0), Incr(Slot(k, SumWsSq), Square(v) - Square(v0))]
    + if isNew then [Incr(Slot(k, Count), 1.0)] else []
  }

  function CurvatureDeltas(k: string, u: real, d: real, u0: real, d0: real, isNew: bool): seq<Incr> {
    [Incr(Slot(k, SumWsUp), u - u0), Incr(Slot(k, SumWsUpSq), Square(u) - Square(u0)),
     Incr(Slot(k, SumWsDown), d - d0), Incr(Slot(k, SumWsDownSq), Square(d) - Square(d0))]
     + if isNew then [Incr(Slot(k, Count), 1.0)] else []
  }

  lemma ScalarDeltasTotal(k: string, v: real, v0: real, isNew: bool, s: Slot)
    ensures TotalAt(ScalarDeltas(k, v, v0, isNew), s) == if s.key == k then ScalarChange(v, v0, isNew, s.field) else 0.0
  {
    var xs := ScalarDeltas(k, v, v0, isNew);
    var tail: seq<Incr> := if isNew then [Incr(Slot(k, Count), 1.0)] + [] else [];
    if isNew { TotalAtCons(Incr(Slot(k, Count), 1.0), [], s); }
    assert xs == [xs[0]] + ([xs[1]] + tail);
    TotalAtCons(xs[1], tail, s);
    TotalAtCons(xs[0], [xs[1]] + tail, s);
  }

  lemma CurvatureDeltasTotal(k: string, u: real, d: real, u0: real, d0: real, isNew: bool, s: Slot)
    ensures TotalAt(CurvatureDeltas(k, u, d, u0, d0, isNew), s)
            == if s.key == k then CurvatureChange(u, d, u0, d0, isNew, s.field) else 0.0
  {
    var xs := CurvatureDeltas(k, u, d, u0, d0, isNew);
    var tail: seq<Incr> := if isNew then [Incr(Slot(k, Count), 1.0)] + [] else [];
    if isNew { TotalAtCons(Incr(Slot(k, Count), 1.0), [], s); }
    assert xs == [xs[0]] + ([xs[1]] + ([xs[2]] + ([xs[3]] + tail)));
    TotalAtCons(xs[3], tail, s);
    TotalAtCons(xs[2], [xs[3]] + tail, s);
    TotalAtCons(xs[1], [xs[2]] + ([xs[3]] + tail), s);
    TotalAtCons(xs[0], [xs[1]] + ([xs[2]] + ([xs[3]] + tail)), s);
  }

  /** The difference without the tenors still to be visited. */
  function Reached(prior: OldContribution, d: Doc, s: Slot, left: set<string>): real {
    if PlaceOf(d, s.key).At? && PlaceOf(d, s.key).tenor in left then 0.0 else Change(prior, d, s)
  }

  ghost predicate Emitted(incrs: seq<Incr>, prior: OldContribution, d: Doc, left: set<string>) {
    forall s :: TotalAt(incrs, s) == Reached(prior, d, s, left)
  }

  lemma EmitTenor(incrs: seq<Incr>, more: seq<Incr>, prior: OldContribution, d: Doc, left: set<string>, t: string)
    requires HasGroup(d) && t in left && Emitted(incrs, prior, d, left)
    requires forall s ::
             TotalAt(more, s)
             == if s.key == TenorKey(GroupOf(d), t) then TenorChange(prior, d, t, s.field)
             else 0.0
    ensures Emitted(incrs + more, prior, d, left - {t})
  {
    forall s ensures TotalAt(incrs + more, s) == Reached(prior, d, s, left - {t}) {
      TotalAtAppend(incrs, more, s);
      assert TotalAt(incrs, s) == Reached(prior, d, s, left);
    }
  }

  method EmitBaseDelta(prior: OldContribution, d: Doc, ghost left: set<string>) returns (incrs: seq<Incr>)
    requires HasGroup(d)
    requires left == if d.sensType == "Curvature" then CurvatureTenors(prior, d) else ScalarTenors(prior, d)
    ensures Emitted(incrs, prior, d, left)
  {
    var k := BaseKey(GroupOf(d));
    incrs := [];
    if d.sensType == "Curvature" {
      if d.cvrUp.Some? && d.cvrDown.Some? {
        var u, dn, u0, dn0 := d.cvrUp.value, d.cvrDown.value, OrZero(prior.scalarCvrUp), OrZero(prior.scalarCvrDown);
        incrs := CurvatureDeltas(k, u, dn, u0, dn0, !prior.stored);
        forall s
          ensures TotalAt(incrs, s) == Reached(prior, d, s, left)
        {
          CurvatureDeltasTotal(k, u, dn, u0, dn0, !prior.stored, s);
        }
      }
    } else if d.value.Some? {
      var v, v0 := d.value.value, OrZero(prior.scalarWs);
      incrs := ScalarDeltas(k, v, v0, !prior.stored);
      forall s
        ensures TotalAt(incrs, s) == Reached(prior, d, s, left)
      {
        ScalarDeltasTotal(k, v, v0, !prior.stored, s);
      }
    }
  }

  method EmitScalarTenorDeltas(prior: OldContribution, d: Doc, base: seq<Incr>) returns (incrs: seq<Incr>)
    requires HasGroup(d) && d.sensType != "Curvature" && Emitted(base, prior, d, ScalarTenors(prior, d))
    ensures Emitted(incrs, prior, d, {})
  {
    incrs := base;
    var left := ScalarTenors(prior, d);
    while left != {}
      invariant left <= ScalarTenors(prior, d) && Emitted(incrs, prior, d, left)
      decreases |left|
    {
      var t :| t in left;
      var tKey := TenorKey(GroupOf(d), t);
      var nv, ov := AtOrZero(OrEmpty(d.perTenor), t), AtOrZero(OrEmpty(prior.perTenorWs), t);
      var more := ScalarDeltas(tKey, nv, ov, !prior.stored);
      forall s ensures TotalAt(more, s) == if s.key == tKey then TenorChange(prior, d, t, s.field) else 0.0 {
        ScalarDeltasTotal(tKey, nv, ov, !prior.stored, s);
      }
      EmitTenor(incrs, more, prior, d, left, t);
      incrs, left := incrs + more, left - {t};
    }
  }

  method EmitCurvatureTenorDeltas(prior: OldContribution, d: Doc, base: seq<Incr>) returns (incrs: seq<Incr>)
    requires HasGroup(d) && d.sensType == "Curvature" && Emitted(base, prior, d, CurvatureTenors(prior, d))
    ensures Emitted(incrs, prior, d, {})
  {
    incrs := base;
    var left := CurvatureTenors(prior, d);
    while left != {}
      invariant left <= CurvatureTenors(prior, d) && Emitted(incrs, prior, d, left)
      decreases |left|
    {
      var t :| t in left;
      var tKey := TenorKey(GroupOf(d), t);
      var nu, nd := AtOrZero(OrEmpty(d.cvrUpPerTenor), t), AtOrZero(OrEmpty(d.cvrDownPerTenor), t);
      var ou, od := AtOrZero(OrEmpty(prior.perTenorCvrUp), t), AtOrZero(OrEmpty(prior.perTenorCvrDown), t);
      var more := CurvatureDeltas(tKey, nu, nd, ou, od, !prior.stored);
      forall s ensures TotalAt(more, s) == if s.key == tKey then TenorChange(prior, d, t, s.field) else 0.0 {
        CurvatureDeltasTotal(tKey, nu, nd, ou, od, !prior.stored, s);
      }
      EmitTenor(incrs, more, prior, d, left, t);
      incrs, left := incrs + more, left - {t};
    }
  }

  /** The increments of a re-ingested row, whatever order its tenors are enumerated in. */
  method EmitRollupDelta(prior: OldContribution, d: Doc) returns (incrs: seq<Incr>)
    ensures forall s :: TotalAt(incrs, s) == Change(prior, d, s)
  {
    incrs := [];
    if !HasGroup(d) { return; }
    if d.sensType == "Curvature" {
      incrs := EmitBaseDelta(prior, d, CurvatureTenors(prior, d));
      incrs := EmitCurvatureTenorDeltas(prior, d, incrs);
    } else {
      incrs := EmitBaseDelta(prior, d, ScalarTenors(prior, d));
      incrs := EmitScalarTenorDeltas(prior, d, incrs);
    }
    forall s ensures TotalAt(incrs, s) == Change(prior, d, s) { assert TotalAt(incrs, s) == Reached(prior, d, s, {}); }
  }

  // ------------------------------------------------------------ when the difference is right

  /** The change in what a stored HASH is worth when `d` is HSET over it. */
  ghost function Worth(h: Hash, s: Slot): real { Contribution(Reconstruct(h), s) }

  /** How far the sent difference misses that change. */
  ghost function Miscount(h: Hash, d: Doc, s: Slot): real { Worth(h + Flatten(d), s) - Worth(h, s) - Sent(h, d, s) }

  lemma NothingIsWorthless(s: Slot)
    ensures Worth(map[], s) == 0.0
  {
  }

  /** A first ingestion sends the whole contribution, for every kind of document. */
  lemma FirstIngestSendsAll(d: Doc, s: Slot)
    requires Enriched(d)
    ensures Sent(map[], d, s) == Contribution(d, s)
  {
  }

  /** So it is right exactly when the document survives the HASH. */
  lemma FirstIngestExactly(d: Doc)
    requires Enriched(d)
    ensures (forall s :: Miscount(map[], d, s) == 0.0) <==> RoundTrips(d)
  {
    assert map[] + Flatten(d) == Flatten(d);
    forall s ensures Miscount(map[], d, s) == Contribution(Reconstruct(Flatten(d)), s) - Contribution(d, s) {
      FirstIngestSendsAll(d, s);
      NothingIsWorthless(s);
    }
    if !RoundTrips(d) {
      var s :| Contribution(Reconstruct(Flatten(d)), s) != Contribution(d, s);
      assert Miscount(map[], d, s) != 0.0;
    }
  }

  // ------------------------------------------------------------ scalar rows

  /** A row of a scalar class, with or without figures. */
  predicate ScalarShape(d: Doc) {
    && HasGroup(d) && KnownType(d.sensType)
    && (if d.sensType == "Curvature"
       then (d.cvrUp.Some? <==> d.cvrDown.Some?) && d.cvrUpPerTenor.None? && d.cvrDownPerTenor.None?
        else d.perTenor.None?)
  }

  predicate HasFigures(d: Doc) { if d.sensType == "Curvature" then d.cvrUp.Some? else d.value.Some? }

  predicate SameGroup(d: Doc, e: Doc) { d.riskClass == e.riskClass && d.bucket == e.bucket && d.sensType == e.sensType }

  /** A HASH stored by earlier rows of the same id: the same group, no tenors. */
  ghost predicate ScalarHash(h: Hash, d: Doc) {
    && SameGroup(Header(h), d) && NoTenorFields(h, d.riskClass)
    && (d.sensType == "Curvature" ==>
          NumberAt(h, FieldName(d.riskClass, "cvr_up")).Some? == NumberAt(h, FieldName(d.riskClass, "cvr_down")).Some?)
  }

  predicate HashHasFigures(h: Hash, d: Doc) {
    if d.sensType == "Curvature" then NumberAt(h, FieldName(d.riskClass, "cvr_up")).Some?
    else NumberAt(h, FieldName(d.riskClass, Leg(d.sensType))).Some?
  }

  lemma ScalarWorth(h: Hash, d: Doc, s: Slot)
    requires ScalarShape(d) && ScalarHash(h, d)
    ensures var worth := if HashHasFigures(h, d) || s.field != Count then Worth(h, s) else Contribution(d, s);
            Sent(h, d, s) == if HasFigures(d) then Contribution(d, s) - worth else 0.0
  {
    NoTenorFieldsStrip(h, d.riskClass);
  }

  lemma ValuelessFields(h: Hash, d: Doc, leg: string)
    requires NumberFields(d) == map[] && NoTenorFields(h, d.riskClass)
    ensures NumberAt(h + Flatten(d), FieldName(d.riskClass, leg)) == NumberAt(h, FieldName(d.riskClass, leg))
    ensures NoTenorFields(h + Flatten(d), d.riskClass)
  {
    FlattenSplits(d);
    TagNamesNoTenor(d);
    NoScalarTag(d, leg);
  }

  /** A row without figures leaves the stored ones in place. */
  lemma ValuelessMerge(h: Hash, d: Doc)
    requires ScalarShape(d) && !HasFigures(d) && ScalarHash(h, d)
    ensures SameFigures(Reconstruct(h + Flatten(d)), Reconstruct(h))
  {
    HeaderOfMerge(h, d);
    ValuelessFields(h, d, Leg(d.sensType));
    ValuelessFields(h, d, "cvr_up");
    ValuelessFields(h, d, "cvr_down");
    NoTenorFieldsStrip(h, d.riskClass);
    NoTenorFieldsStrip(h + Flatten(d), d.riskClass);
  }

  /**
   The only miscount a scalar row can cause: a figure arriving late under an id that is already stored is never
   counted.
   */
  lemma ScalarReingest(h: Hash, d: Doc, s: Slot)
    requires ScalarShape(d) && ScalarHash(h, d)
    ensures Miscount(h, d, s) == if s == BaseSlot(d, Count) && HasFigures(d) && !HashHasFigures(h, d) then 1.0 else 0.0
  {
    ScalarWorth(h, d, s);
    NoTenorFieldsStrip(h, d.riskClass);
    if HasFigures(d) {
      ScalarMergeReconstructs(h, d);
      SameFiguresSameContribution(Reconstruct(h + Flatten(d)), d, s);
    } else {
      ValuelessMerge(h, d);
      SameFiguresSameContribution(Reconstruct(h + Flatten(d)), Reconstruct(h), s);
    }
  }

  // ------------------------------------------------------------ per-tenor rows

  /** HSET of a leg writes its tenors over the stored ones and removes none. */
  lemma TenorsMerged(prefix: string, h: Hash, flat: Hash, m: TenorMap)
    requires TenorGroup(prefix, flat, m)
    ensures Stripped(prefix, h + flat) == Stripped(prefix, h) + m
  {
    var merged := Stripped(prefix, h) + m;
    forall f | HasTenor(prefix, h + flat, f)
      ensures f[|prefix|..] in merged && merged[f[|prefix|..]] == (h + flat)[f].number
    {
      assert f == prefix + f[|prefix|..];
      assert f !in flat ==> HasTenor(prefix, h, f) && f[|prefix|..] !in m;
    }
    forall t | t in merged ensures HasTenor(prefix, h + flat, prefix + t) {
      assert prefix <= prefix + t && (prefix + t)[|prefix|..] == t;
    }
    StrippedUnique(prefix, h + flat, merged);
  }

  /** A row that carries tenors: the GIRR convention. */
  ghost predicate PerTenor(d: Doc) {
    HasGroup(d) && KnownType(d.sensType) && Enriched(d)
    && if d.sensType == "Curvature" then d.cvrUpPerTenor.Some? else d.perTenor.Some?
  }

  predicate NoScalars(h: Hash, d: Doc) {
    if d.sensType == "Curvature" then
      NumberAt(h, FieldName(d.riskClass, "cvr_up")).None? && NumberAt(h, FieldName(d.riskClass, "cvr_down")).None?
    else NumberAt(h, FieldName(d.riskClass, Leg(d.sensType))).None?
  }

  /** A HASH as earlier per-tenor rows of the id leave it: their tenors, and no scalar field. */
  ghost predicate TenorHash(h: Hash, d: Doc) { SameGroup(Header(h), d) && NoScalars(h, d) && PerTenor(Reconstruct(h)) }

  predicate HasTenorOf(d: Doc, t: string) {
    if d.sensType == "Curvature" then d.cvrUpPerTenor.Some? && t in d.cvrUpPerTenor.value
    else d.perTenor.Some? && t in d.perTenor.value
  }

  /** The document with new tenors written over old ones. */
  ghost function Overlaid(r: Doc, d: Doc): Doc
    requires PerTenor(r) && PerTenor(d) && SameGroup(r, d)
  {
    if d.sensType == "Curvature" then
      var ups, downs := r.cvrUpPerTenor.value + d.cvrUpPerTenor.value,
          r.cvrDownPerTenor.value + d.cvrDownPerTenor.value;
      r.(cvrUpPerTenor := Some(ups), cvrDownPerTenor := Some(downs), cvrUp := Some(TenorTotal(ups)),
          cvrDown := Some(TenorTotal(downs)))
    else
      var m := r.perTenor.value + d.perTenor.value;
      r.(perTenor := Some(m), value := Some(TenorTotal(m)))
  }

  lemma CurvatureMerges(h: Hash, d: Doc)
    requires HasGroup(d) && d.sensType == "Curvature" && d.cvrUpPerTenor.Some? && d.cvrDownPerTenor.Some?
    ensures var up, down := TenorPrefix(d.riskClass, "cvr_up"), TenorPrefix(d.riskClass, "cvr_down");
            && Stripped(up, h + Flatten(d)) == Stripped(up, h) + d.cvrUpPerTenor.value
            && Stripped(down, h + Flatten(d)) == Stripped(down, h) + d.cvrDownPerTenor.value
  {
    TenorsOfCurvature(d);
    TenorsMerged(TenorPrefix(d.riskClass, "cvr_up"), h, Flatten(d), d.cvrUpPerTenor.value);
    TenorsMerged(TenorPrefix(d.riskClass, "cvr_down"), h, Flatten(d), d.cvrDownPerTenor.value);
  }

  /** What the stored tenors are, read off the rebuilt document. */
  lemma StoredTenors(h: Hash, d: Doc)
    requires PerTenor(d) && TenorHash(h, d)
    ensures var r := Reconstruct(h);
            if d.sensType == "Curvature" then
              var ups, downs := Stripped(TenorPrefix(d.riskClass, "cvr_up"), h),
                  Stripped(TenorPrefix(d.riskClass, "cvr_down"), h);
              && r.cvrUpPerTenor == Some(ups) && r.cvrDownPerTenor == Some(downs) && ups != map[] && downs != map[]
              && r.cvrUp == Some(TenorTotal(ups)) && r.cvrDown == Some(TenorTotal(downs))
            else
              var m := Stripped(TenorPrefix(d.riskClass, Leg(d.sensType)), h);
              r.perTenor == Some(m) && m != map[] && r.value == Some(TenorTotal(m))
  {
  }

  lemma TenorsMergeReconstruct(h: Hash, d: Doc)
    requires PerTenor(d) && TenorHash(h, d)
    ensures SameFigures(Reconstruct(h + Flatten(d)), Overlaid(Reconstruct(h), d))
  {
    HeaderOfMerge(h, d);
    StoredTenors(h, d);
    if d.sensType == "Curvature" {
      CurvatureMerges(h, d);
      var up, down := TenorPrefix(d.riskClass, "cvr_up"), TenorPrefix(d.riskClass, "cvr_down");
      StillThere(Stripped(up, h), d.cvrUpPerTenor.value);
      StillThere(Stripped(down, h), d.cvrDownPerTenor.value);
    } else {
      TenorsOfValue(d);
      TenorsMerged(TenorPrefix(d.riskClass, Leg(d.sensType)), h, Flatten(d), d.perTenor.value);
      StillThere(Stripped(TenorPrefix(d.riskClass, Leg(d.sensType)), h), d.perTenor.value);
    }
  }

  lemma StillThere(before: TenorMap, after: TenorMap)
    requires before != map[]
    ensures before + after != map[]
  {
    var t :| t in before;
    assert t in before + after;
  }

  /** What a write misses at a tenor the id gains or no longer mentions. */
  function TenorMissed(had: bool, has: bool, stored: real, f: Field): real {
    if has && !had then (if f == Count then 1.0 else 0.0)
    else if had && !has then (if f == Count then 0.0 else stored)
    else 0.0
  }

  ghost function Missed(r: Doc, d: Doc, s: Slot): real
    requires PerTenor(r) && PerTenor(d) && SameGroup(r, d)
  {
    match PlaceOf(d, s.key)
    case Outside => 0.0
    case Base =>
      if s.field == Count then 0.0
      else BaseField(Overlaid(r, d), s.field) - BaseField(r, s.field) - BaseField(d, s.field)
    case At(t) => TenorMissed(HasTenorOf(r, t), HasTenorOf(d, t), TenorField(r, t, s.field), s.field)
  }

  lemma CurvatureTenorSent(h: Hash, d: Doc, s: Slot, r: Doc)
    requires PerTenor(d) && TenorHash(h, d) && d.sensType == "Curvature" && h != map[] && r == Reconstruct(h)
    ensures Sent(h, d, s) == Contribution(Overlaid(r, d), s) - Contribution(r, s) - Missed(r, d, s)
  {
    StoredTenors(h, d);
    var prior := ParseOld(h, d.riskClass, d.sensType);
    assert prior.perTenorCvrUp == r.cvrUpPerTenor && prior.perTenorCvrDown == r.cvrDownPerTenor;
    assert prior.scalarCvrUp.None? && prior.scalarCvrDown.None? && prior.stored;
    CurvatureChanged(prior, d, s, r);
  }

  lemma CurvatureChanged(prior: OldContribution, d: Doc, s: Slot, r: Doc)
    requires PerTenor(d) && PerTenor(r) && SameGroup(r, d) && d.sensType == "Curvature"
    requires prior.perTenorCvrUp == r.cvrUpPerTenor && prior.perTenorCvrDown == r.cvrDownPerTenor
    requires prior.scalarCvrUp.None? && prior.scalarCvrDown.None? && prior.stored
    ensures Change(prior, d, s) == Contribution(Overlaid(r, d), s) - Contribution(r, s) - Missed(r, d, s)
  {
    if PlaceOf(d, s.key).At? {
      var t := PlaceOf(d, s.key).tenor;
      assert t in r.cvrUpPerTenor.value <==> t in r.cvrDownPerTenor.value;
      assert t in d.cvrUpPerTenor.value <==> t in d.cvrDownPerTenor.value;
    }
  }

  lemma ValueTenorSent(h: Hash, d: Doc, s: Slot, r: Doc)
    requires PerTenor(d) && TenorHash(h, d) && d.sensType != "Curvature" && h != map[] && r == Reconstruct(h)
    ensures Sent(h, d, s) == Contribution(Overlaid(r, d), s) - Contribution(r, s) - Missed(r, d, s)
  {
    StoredTenors(h, d);
    var prior := ParseOld(h, d.riskClass, d.sensType);
    assert prior.perTenorWs == r.perTenor && prior.scalarWs.None? && prior.stored;
    ValueChanged(prior, d, s, r);
  }

  lemma ValueChanged(prior: OldContribution, d: Doc, s: Slot, r: Doc)
    requires PerTenor(d) && PerTenor(r) && SameGroup(r, d) && d.sensType != "Curvature"
    requires prior.perTenorWs == r.perTenor && prior.scalarWs.None? && prior.stored
    ensures Change(prior, d, s) == Contribution(Overlaid(r, d), s) - Contribution(r, s) - Missed(r, d, s)
  {
  }

  /**
   A per-tenor row written over stored tenors: the base rollup is sent its whole figure although it still
   holds the old one; a tenor the row adds is not counted; a tenor it no longer mentions is taken out of
   the sums although the HASH keeps it; every other field is exact.
   */
  lemma TenorReingest(h: Hash, d: Doc, s: Slot)
    requires PerTenor(d) && TenorHash(h, d)
    ensures Miscount(h, d, s) == Missed(Reconstruct(h), d, s)
  {
    var r := Reconstruct(h);
    assert h != map[];
    TenorsMergeReconstruct(h, d);
    if d.sensType == "Curvature" { CurvatureTenorSent(h, d, s, r); } else { ValueTenorSent(h, d, s, r); }
    SameFiguresSameContribution(Reconstruct(h + Flatten(d)), Overlaid(r, d), s);
    MiscountIs(h, d, s, Contribution(Overlaid(r, d), s), Contribution(r, s), Missed(r, d, s));
  }

  lemma MiscountIs(h: Hash, d: Doc, s: Slot, after: real, before: real, missed: real)
    requires Worth(h + Flatten(d), s) == after && Worth(h, s) == before && Sent(h, d, s) == after - before - missed
    ensures Miscount(h, d, s) == missed
  {
  }

  // ------------------------------------------------------------ when a per-tenor write is right

  predicate ZeroAt(d: Doc, t: string) {
    if d.sensType == "Curvature" then
      (d.cvrUpPerTenor.Some? && t in d.cvrUpPerTenor.value ==> d.cvrUpPerTenor.value[t] == 0.0)
      && (d.cvrDownPerTenor.Some? && t in d.cvrDownPerTenor.value ==> d.cvrDownPerTenor.value[t] == 0.0)
    else d.perTenor.Some? && t in d.perTenor.value ==> d.perTenor.value[t] == 0.0
  }

  /** An old base figure, a new one and the total of the new tenors fit, in value and in square. */
  predicate FiguresFit(before: real, sent: real, after: real) {
    (before == 0.0 && sent == after) || (sent == 0.0 && before == after)
  }

  ghost predicate BaseFits(r: Doc, d: Doc)
    requires PerTenor(r) && PerTenor(d) && SameGroup(r, d)
  {
    if d.sensType == "Curvature" then
      FiguresFit(r.cvrUp.value, d.cvrUp.value, TenorTotal(d.cvrUpPerTenor.value))
      && FiguresFit(r.cvrDown.value, d.cvrDown.value, TenorTotal(d.cvrDownPerTenor.value))
    else FiguresFit(r.value.value, d.value.value, TenorTotal(d.perTenor.value))
  }

  /** No new tenor, nothing of value left behind, and base figures that fit. */
  ghost predicate RightOver(r: Doc, d: Doc)
    requires PerTenor(r) && PerTenor(d) && SameGroup(r, d)
  {
    && (forall t | HasTenorOf(d, t) :: HasTenorOf(r, t))
    && (forall t | HasTenorOf(r, t) && !HasTenorOf(d, t) :: ZeroAt(r, t))
    && BaseFits(r, d)
  }

  lemma SquaresApart(before: real, sent: real, after: real)
    ensures FiguresFit(before, sent, after)
            <==> after - before - sent == 0.0 && Square(after) - Square(before) - Square(sent) == 0.0
  {
    if after == before + sent {
      assert Square(after) - Square(before) - Square(sent) == 2.0 * (before * sent);
    }
  }

  lemma LeftBehind(before: TenorMap, after: TenorMap)
    requires forall t | t in before && t !in after :: before[t] == 0.0
    ensures TenorTotal(before + after) == TenorTotal(after)
  {
    MergedTotal(before, after);
    AllZeroTotal(before - after.Keys);
  }

  lemma OverlaidBase(r: Doc, d: Doc)
    requires PerTenor(r) && PerTenor(d) && SameGroup(r, d)
    requires forall t | HasTenorOf(r, t) && !HasTenorOf(d, t) :: ZeroAt(r, t)
    ensures d.sensType == "Curvature" ==>
              && Overlaid(r, d).cvrUp == Some(TenorTotal(d.cvrUpPerTenor.value))
              && Overlaid(r, d).cvrDown == Some(TenorTotal(d.cvrDownPerTenor.value))
    ensures d.sensType != "Curvature" ==> Overlaid(r, d).value == Some(TenorTotal(d.perTenor.value))
  {
    if d.sensType == "Curvature" {
      forall t | t in r.cvrUpPerTenor.value && t !in d.cvrUpPerTenor.value
        ensures r.cvrUpPerTenor.value[t] == 0.0 && r.cvrDownPerTenor.value[t] == 0.0
      {
        assert HasTenorOf(r, t) && !HasTenorOf(d, t);
      }
      LeftBehind(r.cvrUpPerTenor.value, d.cvrUpPerTenor.value);
      LeftBehind(r.cvrDownPerTenor.value, d.cvrDownPerTenor.value);
    } else {
      forall t | t in r.perTenor.value && t !in d.perTenor.value ensures r.perTenor.value[t] == 0.0 {
        assert HasTenorOf(r, t) && !HasTenorOf(d, t);
      }
      LeftBehind(r.perTenor.value, d.perTenor.value);
    }
  }

  lemma BaseFitsExactly(r: Doc, d: Doc)
    requires PerTenor(r) && PerTenor(d) && SameGroup(r, d)
    requires forall t | HasTenorOf(r, t) && !HasTenorOf(d, t) :: ZeroAt(r, t)
    ensures BaseFits(r, d) <==> forall f :: Missed(r, d, BaseSlot(d, f)) == 0.0
  {
    OverlaidBase(r, d);
    if d.sensType == "Curvature" {
      SquaresApart(r.cvrUp.value, d.cvrUp.value, TenorTotal(d.cvrUpPerTenor.value));
      SquaresApart(r.cvrDown.value, d.cvrDown.value, TenorTotal(d.cvrDownPerTenor.value));
      assert (forall f :: Missed(r, d, BaseSlot(d, f)) == 0.0) ==>
          Missed(r, d, BaseSlot(d, SumWsUp)) == 0.0 && Missed(r, d, BaseSlot(d, SumWsUpSq)) == 0.0
          && Missed(r, d, BaseSlot(d, SumWsDown)) == 0.0 && Missed(r, d, BaseSlot(d, SumWsDownSq)) == 0.0;
    } else {
      SquaresApart(r.value.value, d.value.value, TenorTotal(d.perTenor.value));
      assert (forall f :: Missed(r, d, BaseSlot(d, f)) == 0.0) ==>
          Missed(r, d, BaseSlot(d, SumWs)) == 0.0 && Missed(r, d, BaseSlot(d, SumWsSq)) == 0.0;
    }
  }

  lemma RightMissesNothing(r: Doc, d: Doc, s: Slot)
    requires PerTenor(r) && PerTenor(d) && SameGroup(r, d) && RightOver(r, d)
    ensures Missed(r, d, s) == 0.0
  {
    match PlaceOf(d, s.key) {
      case Outside =>
      case Base =>
        BaseFitsExactly(r, d);
        assert s == BaseSlot(d, s.field);
      case At(t) => assert HasTenorOf(r, t) && !HasTenorOf(d, t) ==> ZeroAt(r, t);
    }
  }

  function TenorSlot(d: Doc, t: string, f: Field): Slot { Slot(TenorKey(GroupOf(d), t), f) }

  lemma MissingNothingIsRight(r: Doc, d: Doc)
    requires PerTenor(r) && PerTenor(d) && SameGroup(r, d)
    requires forall s :: Missed(r, d, s) == 0.0
    ensures RightOver(r, d)
  {
    var up, down := if d.sensType == "Curvature" then SumWsUp else SumWs,
        if d.sensType == "Curvature" then SumWsDown else SumWs;
    forall t ensures HasTenorOf(d, t) ==> HasTenorOf(r, t)
             ensures HasTenorOf(r, t) && !HasTenorOf(d, t) ==> ZeroAt(r, t)
    {
      assert Missed(r, d, TenorSlot(d, t, Count)) == 0.0;
      assert Missed(r, d, TenorSlot(d, t, up)) == 0.0;
      assert Missed(r, d, TenorSlot(d, t, down)) == 0.0;
    }
    BaseFitsExactly(r, d);
  }

  /** For every per-tenor row and every set of stored tenors: exactly when a re-ingest leaves no rollup field off. */
  lemma TenorReingestExactly(h: Hash, d: Doc)
    requires PerTenor(d) && TenorHash(h, d)
    ensures (forall s :: Miscount(h, d, s) == 0.0) <==> RightOver(Reconstruct(h), d)
  {
    var r := Reconstruct(h);
    forall s ensures Miscount(h, d, s) == Missed(r, d, s) { TenorReingest(h, d, s); }
    if RightOver(r, d) {
      forall s ensures Miscount(h, d, s) == 0.0 { RightMissesNothing(r, d, s); }
    } else if forall s :: Miscount(h, d, s) == 0.0 {
      forall s ensures Missed(r, d, s) == 0.0 { assert Miscount(h, d, s) == 0.0; }
      MissingNothingIsRight(r, d);
    }
  }
}
