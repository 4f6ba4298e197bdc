/**
 Rollup hashes: the per-(class, bucket, type[, tenor]) running sums that calc reads, and
 the one figure every writer of them has to agree with, `Recompute`.
 */
module Rollup {
  import opened Json
  import opened Sums
  import opened Docs
  import opened Keys

  datatype Field = SumWs | SumWsSq | SumWsUp | SumWsUpSq | SumWsDown | SumWsDownSq | Count

  /** A field of a rollup hash; the key is text. */
  datatype Slot = Slot(key: string, field: Field)

  type Store = map<Slot, real>

  /** HINCRBYFLOAT creates an absent field at zero. */
  function Get(store: Store, s: Slot): real { if s in store then store[s] else 0.0 }

  datatype Incr = Incr(slot: Slot, delta: real)

  function HIncrByFloat(store: Store, i: Incr): Store { store[i.slot := Get(store, i.slot) + i.delta] }

  // ------------------------------------------------------------ what one document contributes

  function ScalarField(v: real, f: Field): real {
    match f
    case SumWs => v
    case SumWsSq => Square(v)
    case Count => 1.0
    case _ => 0.0
  }

  function CurvatureField(up: real, down: real, f: Field): real {
    match f
    case SumWsUp => up
    case SumWsUpSq => Square(up)
    case SumWsDown => down
    case SumWsDownSq => Square(down)
    case Count => 1.0
    case _ => 0.0
  }

  predicate HasGroup(d: Doc) { d.riskClass != "" && d.bucket != "" && d.sensType != "" }

  function GroupOf(d: Doc): Group { Group(d.riskClass, d.bucket, d.sensType) }

  /** What a key is to a document. */
  function PlaceOf(d: Doc, key: string): (p: Place)
    ensures p == Base <==> HasGroup(d) && key == BaseKey(GroupOf(d))
    ensures forall t :: p == At(t) <==> HasGroup(d) && key == TenorKey(GroupOf(d), t)
  {
    if HasGroup(d) then PlaceIn(GroupOf(d), key) else Outside
  }

  /** The key is one of those of the document's class, bucket and type. */
  predicate InGroup(d: Doc, key: string) { PlaceOf(d, key) != Outside }

  /** The tenor a key is of, for a document of its group. */
  function TenorAt(d: Doc, key: string): Option<string> {
    if PlaceOf(d, key).At? then Some(PlaceOf(d, key).tenor) else None
  }

  lemma PlacedKey(d: Doc, key: string)
    requires InGroup(d, key)
    ensures key == RollupKey(GroupOf(d), TenorAt(d, key))
  {
  }

  function BaseField(d: Doc, f: Field): real {
    if d.sensType == "Curvature" then
      if d.cvrUp.Some? && d.cvrDown.Some? then CurvatureField(d.cvrUp.value, d.cvrDown.value, f) else 0.0
    else if d.value.Some? then ScalarField(d.value.value, f) else 0.0
  }

  function TenorField(d: Doc, t: string, f: Field): real {
    if d.sensType == "Curvature" then
      if d.cvrUpPerTenor.Some? && d.cvrDownPerTenor.Some? && t in d.cvrUpPerTenor.value && t in d.cvrDownPerTenor.value
      then CurvatureField(d.cvrUpPerTenor.value[t], d.cvrDownPerTenor.value[t], f) else 0.0
    else if d.perTenor.Some? && t in d.perTenor.value then ScalarField(d.perTenor.value[t], f) else 0.0
  }

  function Contribution(d: Doc, s: Slot): real {
    match PlaceOf(d, s.key)
    case Outside => 0.0
    case Base => BaseField(d, s.field)
    case At(t) => TenorField(d, t, s.field)
  }

  function ContributionTo(s: Slot): Doc -> real { (d: Doc) => Contribution(d, s) }

  /** The reference: a fold of the contributions over the documents. */
  function Recompute(docs: seq<Doc>, s: Slot): real { SumBy(ContributionTo(s), docs) }

  lemma RecomputeOrderIndependent(docs: seq<Doc>, docs': seq<Doc>, s: Slot)
    requires multiset(docs) == multiset(docs')
    ensures Recompute(docs, s) == Recompute(docs', s)
  {
    SumByPermutation(ContributionTo(s), docs, docs');
  }

  // ------------------------------------------------------------ path 1: per-row increments

  function DeltaAt(s: Slot): Incr -> real { (i: Incr) => if i.slot == s then i.delta else 0.0 }

  function TotalAt(incrs: seq<Incr>, s: Slot): real { SumBy(DeltaAt(s), incrs) }

  function ScalarIncrs(k: string, v: real): seq<Incr> {
    [Incr(Slot(k, SumWs), v), Incr(Slot(k, SumWsSq), Square(v)), Incr(Slot(k, Count), 1.0)]
  }

  function CurvatureIncrs(k: string, u: real, d: real): seq<Incr> {
    [Incr(Slot(k, SumWsUp), u), Incr(Slot(k, SumWsUpSq), Square(u)), Incr(Slot(k, SumWsDown), d),
     Incr(Slot(k, SumWsDownSq), Square(d)), Incr(Slot(k, Count), 1.0)]
  }

  lemma TotalAtCons(i: Incr, rest: seq<Incr>, s: Slot)
    ensures TotalAt([i] + rest, s) == (if i.slot == s then i.delta else 0.0) + TotalAt(rest, s)
  {
    assert ([i] + rest)[1..] == rest;
  }

  lemma ScalarIncrsTotal(k: string, v: real, s: Slot)
    ensures TotalAt(ScalarIncrs(k, v), s) == if s.key == k then ScalarField(v, s.field) else 0.0
  {
    var a, b, c := Incr(Slot(k, SumWs), v), Incr(Slot(k, SumWsSq), Square(v)), Incr(Slot(k, Count), 1.0);
    assert ScalarIncrs(k, v) == [a] + ([b] + ([c] + []));
    TotalAtCons(c, [], s);
    TotalAtCons(b, [c] + [], s);
    TotalAtCons(a, [b] + ([c] + []), s);
  }

  lemma CurvatureIncrsTotal(k: string, u: real, d: real, s: Slot)
    ensures TotalAt(CurvatureIncrs(k, u, d), s) == if s.key == k then CurvatureField(u, d, s.field) else 0.0
  {
    var xs := CurvatureIncrs(k, u, d);
    assert xs == [xs[0]] + ([xs[1]] + ([xs[2]] + ([xs[3]] + ([xs[4]] + []))));
    TotalAtCons(xs[4], [], s);
    TotalAtCons(xs[3], [xs[4]] + [], s);
    TotalAtCons(xs[2], [xs[3]] + ([xs[4]] + []), s);
    TotalAtCons(xs[1], [xs[2]] + ([xs[3]] + ([xs[4]] + [])), s);
    TotalAtCons(xs[0], [xs[1]] + ([xs[2]] + ([xs[3]] + ([xs[4]] + []))), s);
  }

  lemma TotalAtAppend(a: seq<Incr>, b: seq<Incr>, s: Slot)
    ensures TotalAt(a + b, s) == TotalAt(a, s) + TotalAt(b, s)
  {
    SumByAppend(DeltaAt(s), a, b);
  }

  /** The contribution of a document without the tenors in `left`, which are still to be visited. */
  function Visited(d: Doc, s: Slot, left: set<string>): real {
    if PlaceOf(d, s.key).At? && PlaceOf(d, s.key).tenor in left then 0.0 else Contribution(d, s)
  }

  lemma VisitStep(d: Doc, s: Slot, left: set<string>, t: string)
    requires HasGroup(d) && t in left
    ensures Visited(d, s, left - {t}) == Visited(d, s, left)
      + if s.key == TenorKey(GroupOf(d), t) then TenorField(d, t, s.field) else 0.0
  {
  }

  ghost predicate BaseOnly(incrs: seq<Incr>, d: Doc) {
    forall s :: TotalAt(incrs, s) == if PlaceOf(d, s.key).Base? then Contribution(d, s) else 0.0
  }

  method EmitBase(d: Doc) returns (incrs: seq<Incr>)
    requires HasGroup(d)
    ensures BaseOnly(incrs, d)
  {
    var baseKey := BaseKey(GroupOf(d));
    incrs := [];
    if d.sensType == "Curvature" {
      if d.cvrUp.Some? && d.cvrDown.Some? {
        incrs := CurvatureIncrs(baseKey, d.cvrUp.value, d.cvrDown.value);
        forall s ensures TotalAt(incrs, s) == if PlaceOf(d, s.key).Base? then Contribution(d, s) else 0.0 {
          CurvatureIncrsTotal(baseKey, d.cvrUp.value, d.cvrDown.value, s);
        }
      }
    } else if d.value.Some? {
      incrs := ScalarIncrs(baseKey, d.value.value);
      forall s ensures TotalAt(incrs, s) == if PlaceOf(d, s.key).Base? then Contribution(d, s) else 0.0 {
        ScalarIncrsTotal(baseKey, d.value.value, s);
      }
    }
  }

  method EmitCurvatureTenors(d: Doc, base: seq<Incr>, ups: TenorMap, downs: TenorMap) returns (incrs: seq<Incr>)
    requires HasGroup(d) && d.sensType == "Curvature" && d.cvrUpPerTenor == Some(ups)
             && d.cvrDownPerTenor == Some(downs)
    requires BaseOnly(base, d)
    ensures forall s :: TotalAt(incrs, s) == Contribution(d, s)
  {
    incrs := base;
    var left := ups.Keys;
    while left != {}
      invariant left <= ups.Keys
      invariant forall s :: TotalAt(incrs, s) == Visited(d, s, left)
      decreases |left|
    {
      var t :| t in left;
      ghost var before := incrs;
      var tKey := TenorKey(GroupOf(d), t);
      if t in downs {
        incrs := incrs + CurvatureIncrs(tKey, ups[t], downs[t]);
      }
      forall s ensures TotalAt(incrs, s) == Visited(d, s, left - {t}) {
        VisitStep(d, s, left, t);
        assert TotalAt(before, s) == Visited(d, s, left);
        if t in downs {
          TotalAtAppend(before, CurvatureIncrs(tKey, ups[t], downs[t]), s);
          CurvatureIncrsTotal(tKey, ups[t], downs[t], s);
        }
      }
      left := left - {t};
    }
  }

  method EmitScalarTenors(d: Doc, base: seq<Incr>, m: TenorMap) returns (incrs: seq<Incr>)
    requires HasGroup(d) && d.sensType != "Curvature" && d.perTenor == Some(m)
    requires BaseOnly(base, d)
    ensures forall s :: TotalAt(incrs, s) == Contribution(d, s)
  {
    incrs := base;
    var left := m.Keys;
    while left != {}
      invariant left <= m.Keys
      invariant forall s :: TotalAt(incrs, s) == Visited(d, s, left)
      decreases |left|
    {
      var t :| t in left;
      ghost var before := incrs;
      var tKey := TenorKey(GroupOf(d), t);
      incrs := incrs + ScalarIncrs(tKey, m[t]);
      forall s ensures TotalAt(incrs, s) == Visited(d, s, left - {t}) {
        VisitStep(d, s, left, t);
        assert TotalAt(before, s) == Visited(d, s, left);
        TotalAtAppend(before, ScalarIncrs(tKey, m[t]), s);
        ScalarIncrsTotal(tKey, m[t], s);
      }
      left := left - {t};
    }
  }

  /** The increments one row pipelines, in whatever order its tenors are enumerated. */
  method EmitRollupHincrs(d: Doc) returns (incrs: seq<Incr>)
    ensures forall s :: TotalAt(incrs, s) == Contribution(d, s)
  {
    incrs := [];
    if !HasGroup(d) { return; }
    incrs := EmitBase(d);
    if d.sensType == "Curvature" && d.cvrUpPerTenor.Some? && d.cvrDownPerTenor.Some? {
      incrs := EmitCurvatureTenors(d, incrs, d.cvrUpPerTenor.value, d.cvrDownPerTenor.value);
    } else if d.sensType != "Curvature" && d.perTenor.Some? {
      incrs := EmitScalarTenors(d, incrs, d.perTenor.value);
    }
  }

  /** Running a pipeline of increments moves every field by the total addressed to it. */
  method Pipeline(store: Store, incrs: seq<Incr>) returns (store': Store)
    ensures forall s :: Get(store', s) == Get(store, s) + TotalAt(incrs, s)
  {
    store' := store;
    for n := 0 to |incrs|
      invariant forall s :: Get(store', s) == Get(store, s) + TotalAt(incrs[..n], s)
    {
      assert incrs[..n + 1] == incrs[..n] + [incrs[n]];
      forall s ensures TotalAt(incrs[..n + 1], s) == TotalAt(incrs[..n], s) + DeltaAt(s)(incrs[n]) {
        SumBySnoc(DeltaAt(s), incrs[..n], incrs[n]);
      }
      store' := HIncrByFloat(store', incrs[n]);
    }
    assert incrs[..|incrs|] == incrs;
  }

  /** Ingesting rows one by one, each with its own pipeline. */
  method IngestRows(store: Store, docs: seq<Doc>) returns (store': Store)
    ensures forall s :: Get(store', s) == Get(store, s) + Recompute(docs, s)
  {
    store' := store;
    for n := 0 to |docs|
      invariant forall s :: Get(store', s) == Get(store, s) + Recompute(docs[..n], s)
    {
      assert docs[..n + 1] == docs[..n] + [docs[n]];
      forall s ensures Recompute(docs[..n + 1], s) == Recompute(docs[..n], s) + Contribution(docs[n], s) {
        SumBySnoc(ContributionTo(s), docs[..n], docs[n]);
      }
      var incrs := EmitRollupHincrs(docs[n]);
      store' := Pipeline(store', incrs);
    }
    assert docs[..|docs|] == docs;
  }
}
