/** The rollup and HASH fields of a document, spelled out: which key, which field, which figure. */
module Spelled {
  import opened Docs
  import opened Keys
  import opened Rollup
  import opened HashForm

  // ------------------------------------------------------------ rollup fields

  /** The fields a scalar figure moves. */
  ghost predicate ScalarAt(d: Doc, key: string, v: real) {
    && Contribution(d, Slot(key, SumWs)) == v && Contribution(d, Slot(key, SumWsSq)) == v * v
    && Contribution(d, Slot(key, Count)) == 1.0
    && forall f | f != SumWs && f != SumWsSq && f != Count :: Contribution(d, Slot(key, f)) == 0.0
  }

  /** The fields a pair of curvature figures moves. */
  ghost predicate CurvatureAt(d: Doc, key: string, up: real, down: real) {
    && Contribution(d, Slot(key, SumWsUp)) == up && Contribution(d, Slot(key, SumWsUpSq)) == up * up
    && Contribution(d, Slot(key, SumWsDown)) == down && Contribution(d, Slot(key, SumWsDownSq)) == down * down
    && Contribution(d, Slot(key, Count)) == 1.0
    && Contribution(d, Slot(key, SumWs)) == 0.0 && Contribution(d, Slot(key, SumWsSq)) == 0.0
  }

  ghost predicate NothingAt(d: Doc, key: string) { forall f :: Contribution(d, Slot(key, f)) == 0.0 }

  function RollupName(d: Doc): string { "rollup:" + d.riskClass + ":" + d.bucket + ":" + d.sensType }

  predicate Named(d: Doc) { d.riskClass != "" && d.bucket != "" && d.sensType != "" }

  lemma NamesAgree(d: Doc)
    ensures BaseKey(GroupOf(d)) == RollupName(d) && Named(d) == HasGroup(d)
    ensures forall t :: TenorKey(GroupOf(d), t) == RollupName(d) + ":tenor:" + t
  {
    assert "rollup" + ":" + (d.riskClass + ":" + (d.bucket + ":" + d.sensType)) == RollupName(d);
  }

  /** The base rollup of a document: its scalar figure, or both its curvature figures, or nothing. */
  lemma BaseRollup(d: Doc)
    requires Named(d)
    ensures var key := RollupName(d);
            && (d.sensType != "Curvature" && d.value.Some? ==> ScalarAt(d, key, d.value.value))
            && (d.sensType == "Curvature" && d.cvrUp.Some? && d.cvrDown.Some? ==>
                  CurvatureAt(d, key, d.cvrUp.value, d.cvrDown.value))
            && ((if d.sensType == "Curvature" then d.cvrUp.None? || d.cvrDown.None? else d.value.None?) ==>
                  NothingAt(d, key))
  {
    NamesAgree(d);
    assert PlaceOf(d, RollupName(d)) == Base;
  }

  /** Its rollup of a tenor: that tenor's figures, or nothing. */
  lemma TenorRollup(d: Doc, t: string)
    requires Named(d)
    ensures var key := RollupName(d) + ":tenor:" + t;
            && (d.sensType != "Curvature" && d.perTenor.Some? && t in d.perTenor.value ==>
                  ScalarAt(d, key, d.perTenor.value[t]))
            && (d.sensType == "Curvature" && d.cvrUpPerTenor.Some? && t in d.cvrUpPerTenor.value
                && d.cvrDownPerTenor.Some? && t in d.cvrDownPerTenor.value ==>
                  CurvatureAt(d, key, d.cvrUpPerTenor.value[t], d.cvrDownPerTenor.value[t]))
            && ((if d.sensType == "Curvature" then
                   !(d.cvrUpPerTenor.Some? && t in d.cvrUpPerTenor.value)
                   || !(d.cvrDownPerTenor.Some? && t in d.cvrDownPerTenor.value)
                 else !(d.perTenor.Some? && t in d.perTenor.value)) ==> NothingAt(d, key))
  {
    NamesAgree(d);
    assert PlaceOf(d, TenorKey(GroupOf(d), t)) == At(t);
  }

  /** No other key, and without class, bucket and type none at all. */
  lemma NoOtherRollup(d: Doc, key: string)
    requires !Named(d) || (key != RollupName(d) && forall t :: key != RollupName(d) + ":tenor:" + t)
    ensures NothingAt(d, key)
  {
    NamesAgree(d);
  }

  // ------------------------------------------------------------ HASH fields

  /** A class name in lower case, letter by letter. */
  ghost predicate IsLower(lower: string, name: string) {
    |lower| == |name| && forall i | 0 <= i < |name| ::
      lower[i] == if 'A' <= name[i] <= 'Z' then ((name[i] as int) + 32) as char else name[i]
  }

  lemma LowerIs(lower: string, name: string)
    requires IsLower(lower, name)
    ensures Lower(name) == lower
  {
  }

  /** The attributes of a document that are stored, under their own names. */
  lemma StoredAttributes(d: Doc, k: string)
    ensures var h := Flatten(d);
            && (d.classTag.Some? ==> "risk_class" in h && h["risk_class"] == Text(d.riskClass))
            && (d.bucketTag.Some? ==> "bucket" in h && h["bucket"] == Text(d.bucket))
            && (d.typeTag.Some? ==> "sensitivity_type" in h && h["sensitivity_type"] == Text(d.sensType))
            && (k in ["book", "trade_id", "risk_factor", "trader", "_calibration", "desk"] ==>
                  (k in h <==> k in d.tags) && (k in h ==> h[k] == Text(d.tags[k])))
            && (d.classTag.None? ==> "risk_class" !in h) && (d.bucketTag.None? ==> "bucket" !in h)
            && (d.typeTag.None? ==> "sensitivity_type" !in h)
  {
    NumberFieldNames(d);
    TagNames("risk_class");
    TagNames("bucket");
    TagNames("sensitivity_type");
    if k in OTHER_TAGS { TagNames(k); }
  }

  lemma NumbersStored(d: Doc, f: string)
    ensures f in NumberFields(d) ==> f in Flatten(d) && Flatten(d)[f] == NumberFields(d)[f]
    ensures f in Flatten(d) && f !in NumberFields(d) ==> !IsWeightName(f)
  {
    NumberFieldNames(d);
    TagFieldNames(d);
  }

  predicate WeightField(f: string) { "ws_" <= f }

  /** A scalar Delta or Vega figure is the one number stored, as ws_<class>_delta or ws_<class>_vega. */
  lemma StoredScalar(d: Doc, lower: string, leg: string, f: string)
    requires IsLower(lower, d.riskClass) && d.riskClass != "" && d.perTenor.None?
    requires (d.sensType == "Delta" && leg == "delta") || (d.sensType == "Vega" && leg == "vega")
    ensures WeightField(f) ==>
              (f in Flatten(d) <==> d.value.Some? && f == "ws_" + lower + "_" + leg)
              && (f in Flatten(d) ==> Flatten(d)[f] == Number(d.value.value))
  {
    LowerIs(lower, d.riskClass);
    NumbersStored(d, f);
  }

  /** Tenor figures are stored one field each, as ws_<class>_delta_<tenor> or ws_<class>_vega_<tenor>, and no scalar. */
  lemma StoredTenors(d: Doc, lower: string, leg: string, f: string)
    requires IsLower(lower, d.riskClass) && d.riskClass != "" && d.perTenor.Some?
    requires (d.sensType == "Delta" && leg == "delta") || (d.sensType == "Vega" && leg == "vega")
    ensures WeightField(f) ==>
              (f in Flatten(d) <==> exists t :: t in d.perTenor.value && f == "ws_" + lower + "_" + leg + "_" + t)
    ensures forall t | t in d.perTenor.value ::
              var name := "ws_" + lower + "_" + leg + "_" + t;
              name in Flatten(d) && Flatten(d)[name] == Number(d.perTenor.value[t])
  {
    LowerIs(lower, d.riskClass);
    NumbersStored(d, f);
    PrefixedStored(d, TenorPrefix(d.riskClass, leg), d.perTenor.value, f);
  }

  lemma PrefixedStored(d: Doc, prefix: string, m: TenorMap, f: string)
    requires NumberFields(d) == Prefixed(prefix, m)
    ensures f in NumberFields(d) <==> exists t :: t in m && f == prefix + t
    ensures forall t | t in m :: prefix + t in Flatten(d) && Flatten(d)[prefix + t] == Number(m[t])
  {
    if f in NumberFields(d) { assert f == prefix + f[|prefix|..]; }
    forall t | t in m ensures prefix + t in Flatten(d) && Flatten(d)[prefix + t] == Number(m[t]) {
      NumbersStored(d, prefix + t);
    }
  }

  /** Scalar curvature figures are stored as ws_<class>_cvr_up and ws_<class>_cvr_down. */
  lemma StoredCurvature(d: Doc, lower: string, f: string)
    requires IsLower(lower, d.riskClass) && d.riskClass != "" && d.sensType == "Curvature" && d.cvrUpPerTenor.None?
    ensures var up, down := "ws_" + lower + "_cvr_up", "ws_" + lower + "_cvr_down";
            && (d.cvrUp.Some? ==> up in Flatten(d) && Flatten(d)[up] == Number(d.cvrUp.value))
            && (d.cvrDown.Some? ==> down in Flatten(d) && Flatten(d)[down] == Number(d.cvrDown.value))
            && (WeightField(f) && f in Flatten(d) ==> (f == up && d.cvrUp.Some?) || (f == down && d.cvrDown.Some?))
  {
    LowerIs(lower, d.riskClass);
    var up, down := "ws_" + lower + "_cvr_up", "ws_" + lower + "_cvr_down";
    assert FieldName(d.riskClass, "cvr_up") == up && FieldName(d.riskClass, "cvr_down") == down && |up| != |down|;
    NumbersStored(d, f);
    NumbersStored(d, up);
    NumbersStored(d, down);
  }

  /** Curvature figures by tenor are stored as ws_<class>_cvr_up_<tenor> and ws_<class>_cvr_down_<tenor>. */
  lemma StoredCurvatureTenors(d: Doc, lower: string)
    requires IsLower(lower, d.riskClass) && d.riskClass != "" && d.sensType == "Curvature"
    requires d.cvrUpPerTenor.Some? && d.cvrDownPerTenor.Some?
    ensures forall t | t in d.cvrUpPerTenor.value ::
              var name := "ws_" + lower + "_cvr_up_" + t;
              name in Flatten(d) && Flatten(d)[name] == Number(d.cvrUpPerTenor.value[t])
    ensures forall t | t in d.cvrDownPerTenor.value ::
              var name := "ws_" + lower + "_cvr_down_" + t;
              name in Flatten(d) && Flatten(d)[name] == Number(d.cvrDownPerTenor.value[t])
  {
    LowerIs(lower, d.riskClass);
    var up, down := TenorPrefix(d.riskClass, "cvr_up"), TenorPrefix(d.riskClass, "cvr_down");
    forall t | t in d.cvrUpPerTenor.value
      ensures "ws_" + lower + "_cvr_up_" + t in Flatten(d)
      ensures Flatten(d)["ws_" + lower + "_cvr_up_" + t] == Number(d.cvrUpPerTenor.value[t])
    {
      assert "ws_" + lower + "_cvr_up_" + t == up + t;
      UpAndDownDiffer(d.riskClass, up + t);
      NumbersStored(d, up + t);
    }
    forall t | t in d.cvrDownPerTenor.value
      ensures "ws_" + lower + "_cvr_down_" + t in Flatten(d)
      ensures Flatten(d)["ws_" + lower + "_cvr_down_" + t] == Number(d.cvrDownPerTenor.value[t])
    {
      assert "ws_" + lower + "_cvr_down_" + t == down + t;
      NumbersStored(d, down + t);
    }
  }
}
