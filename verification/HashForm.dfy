/**
 The flat HASH behind `sens:<ulid>`: how a document is flattened into it, how the backfill
 rebuilds the document, and what the atomic ingest path parses out of it.
 */
module HashForm {
  import opened Json
  import opened Sums
  import opened Docs

  datatype HVal = Text(text: string) | Number(number: real)

  type Hash = map<string, HVal>

  // ------------------------------------------------------------ field names

  function LowerChar(c: char): char { if 'A' <= c <= 'Z' then ((c as int) + 32) as char else c }

  function Lower(s: string): string { seq(|s|, i requires 0 <= i < |s| => LowerChar(s[i])) }

  function Leg(sensType: string): string {
    if sensType == "Delta" then "delta" else if sensType == "Vega" then "vega" else ""
  }

  function FieldName(riskClass: string, leg: string): string { "ws_" + Lower(riskClass) + "_" + leg }

  function TenorPrefix(riskClass: string, leg: string): string { FieldName(riskClass, leg) + "_" }

  predicate IsWeightName(f: string) { "ws_" <= f }

  lemma TagNames(k: string)
    requires k in OTHER_TAGS || k in OWN_TAGS
    ensures !IsWeightName(k)
  {
    assert k[0] != 'w';
  }

  lemma UpAndDownDiffer(riskClass: string, f: string)
    ensures !(TenorPrefix(riskClass, "cvr_up") <= f && TenorPrefix(riskClass, "cvr_down") <= f)
  {
    var n := |"ws_" + Lower(riskClass) + "_cvr_"|;
    assert TenorPrefix(riskClass, "cvr_up")[n] == 'u';
    assert TenorPrefix(riskClass, "cvr_down")[n] == 'd';
  }

  // ------------------------------------------------------------ prefixed groups of numeric fields

  function PrefixedNames(prefix: string, m: TenorMap): set<string> { set t | t in m :: prefix + t }

  function Prefixed(prefix: string, m: TenorMap): (h: Hash)
    ensures forall t | t in m :: prefix + t in h && h[prefix + t] == Number(m[t])
    ensures forall f | f in h :: prefix <= f && f[|prefix|..] in m && h[f] == Number(m[f[|prefix|..]])
  {
    assert forall t | t in m :: (prefix + t)[|prefix|..] == t;
    map f | f in PrefixedNames(prefix, m) :: Number(m[f[|prefix|..]])
  }

  predicate HasTenor(prefix: string, h: Hash, f: string) { f in h && prefix <= f && h[f].Number? }

  lemma SameSuffix(prefix: string, f: string, g: string)
    requires prefix <= f && prefix <= g && f[|prefix|..] == g[|prefix|..]
    ensures f == g
  {
    assert f == prefix + f[|prefix|..] && g == prefix + g[|prefix|..];
  }

  function Labels(prefix: string, h: Hash): set<string> { set f | f in h && HasTenor(prefix, h, f) :: f[|prefix|..] }

  function Stripped(prefix: string, h: Hash): (m: TenorMap)
    ensures forall f | HasTenor(prefix, h, f) :: f[|prefix|..] in m && m[f[|prefix|..]] == h[f].number
    ensures forall t | t in m :: HasTenor(prefix, h, prefix + t)
  {
    assert forall f | prefix <= f :: f == prefix + f[|prefix|..];
    map t | t in Labels(prefix, h) :: h[prefix + t].number
  }

  /** The scan both readers run over a HASH to collect one leg's tenors. */
  method CollectTenors(prefix: string, h: Hash) returns (m: TenorMap)
    ensures m == Stripped(prefix, h)
  {
    m := map[];
    var left := h.Keys;
    while left != {}
      invariant left <= h.Keys
      invariant forall f | HasTenor(prefix, h, f) && f !in left :: f[|prefix|..] in m && m[f[|prefix|..]] == h[f].number
      invariant forall t | t in m :: HasTenor(prefix, h, prefix + t) && prefix + t !in left
      decreases |left|
    {
      var f :| f in left;
      left := left - {f};
      if prefix <= f && h[f].Number? {
        assert f == prefix + f[|prefix|..];
        forall g | HasTenor(prefix, h, g) && g !in left && g != f ensures g[|prefix|..] != f[|prefix|..] {
          if g[|prefix|..] == f[|prefix|..] { SameSuffix(prefix, f, g); }
        }
        m := m[f[|prefix|..] := h[f].number];
      }
    }
    StrippedUnique(prefix, h, m);
  }

  lemma StrippedUnique(prefix: string, h: Hash, m: TenorMap)
    requires forall f | HasTenor(prefix, h, f) :: f[|prefix|..] in m && m[f[|prefix|..]] == h[f].number
    requires forall t | t in m :: HasTenor(prefix, h, prefix + t)
    ensures m == Stripped(prefix, h)
  {
    var s := Stripped(prefix, h);
    forall t ensures t in m <==> t in s
             ensures t in m && t in s ==> m[t] == s[t]
    {
      var f := prefix + t;
      assert f[|prefix|..] == t;
      assert t in m || t in s ==> HasTenor(prefix, h, f);
    }
  }

  /** The fields of h under the prefix are exactly the tenors of m. */
  ghost predicate TenorGroup(prefix: string, h: Hash, m: TenorMap) {
    && (forall f | f in Prefixed(prefix, m) :: f in h && h[f] == Prefixed(prefix, m)[f])
    && (forall f | f in h && f !in Prefixed(prefix, m) :: !(prefix <= f))
  }

  /** Prefixing and stripping are inverse, whatever other fields surround the group. */
  lemma StrippedPrefixed(prefix: string, h: Hash, m: TenorMap)
    requires TenorGroup(prefix, h, m)
    ensures Stripped(prefix, h) == m
  {
    forall t | t in m ensures HasTenor(prefix, h, prefix + t) && h[prefix + t] == Number(m[t]) {
      assert prefix <= prefix + t;
    }
    StrippedUnique(prefix, h, m);
  }

  lemma StrippedNothing(prefix: string, h: Hash)
    requires forall f | f in h :: !(prefix <= f)
    ensures Stripped(prefix, h) == map[]
  {
  }

  // ------------------------------------------------------------ flattening

  function TagOf(d: Doc, k: string): Option<string> {
    if k == "risk_class" then d.classTag
    else if k == "bucket" then d.bucketTag else if k == "sensitivity_type" then d.typeTag
    else if k in d.tags then Some(d.tags[k]) else None
  }

  /** The tag attributes that are present, empty ones included. */
  function TagFields(d: Doc): Hash {
    map k | k in OWN_TAGS + OTHER_TAGS && TagOf(d, k).Some? :: Text(TagOf(d, k).value)
  }

  function Scalar(name: string, v: Option<real>): Hash { if v.Some? then map[name := Number(v.value)] else map[] }

  function NumberFields(d: Doc): Hash {
    if d.riskClass == "" || d.sensType == "" then map[]
    else if d.sensType == "Curvature" then
      if d.cvrUpPerTenor.Some? then
        Prefixed(TenorPrefix(d.riskClass, "cvr_up"), d.cvrUpPerTenor.value)
        + (if d.cvrDownPerTenor.Some? then Prefixed(TenorPrefix(d.riskClass, "cvr_down"), d.cvrDownPerTenor.value)
           else map[])
      else Scalar(FieldName(d.riskClass, "cvr_up"), d.cvrUp) + Scalar(FieldName(d.riskClass, "cvr_down"), d.cvrDown)
    else if Leg(d.sensType) == "" then map[]
    else if d.perTenor.Some? then Prefixed(TenorPrefix(d.riskClass, Leg(d.sensType)), d.perTenor.value)
    else Scalar(FieldName(d.riskClass, Leg(d.sensType)), d.value)
  }

  /** The fields an HSET of the document writes. A per-tenor document writes no scalar field. */
  function Flatten(d: Doc): Hash { TagFields(d) + NumberFields(d) }

  lemma TagFieldNames(d: Doc)
    ensures forall f | f in TagFields(d) :: !IsWeightName(f) && f in OWN_TAGS + OTHER_TAGS
  {
    forall f | f in TagFields(d) ensures !IsWeightName(f) { TagNames(f); }
  }

  lemma WeightNames(riskClass: string, leg: string, f: string)
    ensures IsWeightName(FieldName(riskClass, leg)) && IsWeightName(TenorPrefix(riskClass, leg))
    ensures TenorPrefix(riskClass, leg) <= f ==> IsWeightName(f)
    ensures !(TenorPrefix(riskClass, leg) <= FieldName(riskClass, leg))
  {
    assert FieldName(riskClass, leg) == "ws_" + (Lower(riskClass) + "_" + leg);
    assert TenorPrefix(riskClass, leg) == "ws_" + (Lower(riskClass) + "_" + leg + "_");
    if TenorPrefix(riskClass, leg) <= f {
      assert f[..3] == TenorPrefix(riskClass, leg)[..3];
    }
  }

  lemma NumberFieldNames(d: Doc)
    ensures forall f | f in NumberFields(d) :: IsWeightName(f)
  {
    forall f | f in NumberFields(d) ensures IsWeightName(f) {
      WeightNames(d.riskClass, "cvr_up", f);
      WeightNames(d.riskClass, "cvr_down", f);
      WeightNames(d.riskClass, Leg(d.sensType), f);
    }
  }

  // ------------------------------------------------------------ reading back

  function TextAt(h: Hash, k: string): Option<string> { if k in h && h[k].Text? then Some(h[k].text) else None }

  function NumberAt(h: Hash, k: string): Option<real> { if k in h && h[k].Number? then Some(h[k].number) else None }

  /** The document with its group and no figures. */
  function Header(h: Hash): Doc {
    Doc(TextAt(h, "risk_class"), TextAt(h, "bucket"), TextAt(h, "sensitivity_type"), map[], None, None, None, None,
        None, None)
  }

  /** What the backfill makes of a HASH: tenors when there are any, else the scalar. */
  ghost function Reconstruct(h: Hash): Doc {
    var d := Header(h);
    if d.riskClass == "" || d.sensType == "" then d
    else if d.sensType == "Curvature" then
      var ups, downs := Stripped(TenorPrefix(d.riskClass, "cvr_up"), h),
          Stripped(TenorPrefix(d.riskClass, "cvr_down"), h);
      if ups != map[] && downs != map[] then
        d.(cvrUpPerTenor := Some(ups), cvrDownPerTenor := Some(downs), cvrUp := Some(TenorTotal(ups)),
            cvrDown := Some(TenorTotal(downs)))
      else d.(cvrUp := NumberAt(h, FieldName(d.riskClass, "cvr_up")),
          cvrDown := NumberAt(h, FieldName(d.riskClass, "cvr_down")))
    else if Leg(d.sensType) == "" then d
    else
      var m := Stripped(TenorPrefix(d.riskClass, Leg(d.sensType)), h);
      if m != map[] then d.(perTenor := Some(m), value := Some(TenorTotal(m)))
      else d.(value := NumberAt(h, FieldName(d.riskClass, Leg(d.sensType))))
  }

  method SumTenors(m: TenorMap) returns (sum: real)
    ensures sum == TenorTotal(m)
  {
    sum := 0.0;
    var left := m;
    while left != map[]
      invariant left.Keys <= m.Keys
      invariant sum + TenorTotal(left) == TenorTotal(m)
      decreases |left|
    {
      var t :| t in left;
      SumMapRemove(Identity, left, t);
      sum := sum + left[t];
      left := left - {t};
    }
  }

  method ReconstructDocFromHash(h: Hash) returns (d: Doc)
    ensures d == Reconstruct(h)
  {
    d := Header(h);
    if d.riskClass == "" || d.sensType == "" { return; }
    if d.sensType == "Curvature" {
      var ups := CollectTenors(TenorPrefix(d.riskClass, "cvr_up"), h);
      var downs := CollectTenors(TenorPrefix(d.riskClass, "cvr_down"), h);
      if ups != map[] && downs != map[] {
        var upSum := SumTenors(ups);
        var downSum := SumTenors(downs);
        d := d.(cvrUpPerTenor := Some(ups), cvrDownPerTenor := Some(downs), cvrUp := Some(upSum),
            cvrDown := Some(downSum));
      } else {
        d := d.(cvrUp := NumberAt(h, FieldName(d.riskClass, "cvr_up")),
            cvrDown := NumberAt(h, FieldName(d.riskClass, "cvr_down")));
      }
      return;
    }
    if Leg(d.sensType) == "" { return; }
    var m := CollectTenors(TenorPrefix(d.riskClass, Leg(d.sensType)), h);
    if m != map[] {
      var sum := SumTenors(m);
      d := d.(perTenor := Some(m), value := Some(sum));
    } else {
      d := d.(value := NumberAt(h, FieldName(d.riskClass, Leg(d.sensType))));
    }
  }
}
