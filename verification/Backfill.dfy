/**
 The rollup backfill: rebuild every stored document from its HASH, add the documents up in
 two in-memory maps, and overwrite the rollup hashes with the totals.
 */
module Backfill {
  import opened Json
  import opened Sums
  import opened Docs
  import opened Keys
  import opened Rollup
  import opened HashForm

  datatype ScalarAcc = ScalarAcc(sumWs: real, sumWsSq: real, count: real)

  datatype CurvatureAcc = CurvatureAcc(sumWsUp: real, sumWsUpSq: real, sumWsDown: real, sumWsDownSq: real, count: real)

  type ScalarMap = map<string, ScalarAcc>

  type CurvatureMap = map<string, CurvatureAcc>

  function ScalarAt(m: ScalarMap, s: Slot): real {
    if s.key !in m then 0.0
    else match s.field
      case SumWs => m[s.key].sumWs
      case SumWsSq => m[s.key].sumWsSq
      case Count => m[s.key].count
      case _ => 0.0
  }

  function CurvatureAt(m: CurvatureMap, s: Slot): real {
    if s.key !in m then 0.0
    else match s.field
      case SumWsUp => m[s.key].sumWsUp
      case SumWsUpSq => m[s.key].sumWsUpSq
      case SumWsDown => m[s.key].sumWsDown
      case SumWsDownSq => m[s.key].sumWsDownSq
      case Count => m[s.key].count
      case _ => 0.0
  }

  /** What the map of one kind holds: Curvature, or everything else. */
  function AccAt(scalar: ScalarMap, curvature: CurvatureMap, cvr: bool, s: Slot): real {
    if cvr then CurvatureAt(curvature, s) else ScalarAt(scalar, s)
  }

  /** The fields a rollup hash of a kind has. */
  predicate FieldOf(cvr: bool, f: Field) {
    if cvr then f != SumWs && f != SumWsSq else f == SumWs || f == SumWsSq || f == Count
  }

  predicate IsKind(d: Doc, cvr: bool) { cvr == (d.sensType == "Curvature") }

  function KindOf(cvr: bool, s: Slot): Doc -> real { (d: Doc) => if IsKind(d, cvr) then Contribution(d, s) else 0.0 }

  /** The recomputation over the documents of one kind. */
  function RecomputeKind(docs: seq<Doc>, cvr: bool, s: Slot): real { SumBy(KindOf(cvr, s), docs) }

  function VisitedKind(d: Doc, cvr: bool, s: Slot, left: set<string>): real {
    if IsKind(d, cvr) then Visited(d, s, left) else 0.0
  }

  lemma KindsTogether(docs: seq<Doc>, s: Slot)
    ensures Recompute(docs, s) == RecomputeKind(docs, true, s) + RecomputeKind(docs, false, s)
  {
    SumByAdd(ContributionTo(s), KindOf(true, s), KindOf(false, s), docs);
  }

  /** Every accumulator was bumped at least once. */
  ghost predicate Bumped(scalar: ScalarMap, curvature: CurvatureMap) {
    (forall k | k in scalar :: scalar[k].count > 0.0) && (forall k | k in curvature :: curvature[k].count > 0.0)
  }

  ghost predicate AccIs(scalar: ScalarMap, curvature: CurvatureMap, docs: seq<Doc>) {
    forall cvr, s :: AccAt(scalar, curvature, cvr, s) == RecomputeKind(docs, cvr, s)
  }

  ghost predicate AccVisited(scalar: ScalarMap, curvature: CurvatureMap, docs: seq<Doc>, d: Doc, left: set<string>) {
    forall cvr, s :: AccAt(scalar, curvature, cvr, s) == RecomputeKind(docs, cvr, s) + VisitedKind(d, cvr, s, left)
  }

  lemma AccDone(scalar: ScalarMap, curvature: CurvatureMap, docs: seq<Doc>, d: Doc)
    requires AccVisited(scalar, curvature, docs, d, {})
    ensures AccIs(scalar, curvature, docs + [d])
  {
    forall cvr, s ensures AccAt(scalar, curvature, cvr, s) == RecomputeKind(docs + [d], cvr, s) {
      SumBySnoc(KindOf(cvr, s), docs, d);
      assert AccAt(scalar, curvature, cvr, s) == RecomputeKind(docs, cvr, s) + VisitedKind(d, cvr, s, {});
    }
  }

  /** The figures one visit adds under its key. */
  function KeyFigure(d: Doc, t: string, cvr: bool, s: Slot): real {
    if IsKind(d, cvr) && s.key == TenorKey(GroupOf(d), t) then TenorField(d, t, s.field) else 0.0
  }

  lemma AccTenor(scalar: ScalarMap, curvature: CurvatureMap, scalar': ScalarMap, curvature': CurvatureMap,
      docs: seq<Doc>, d: Doc, left: set<string>, t: string)
    requires HasGroup(d) && t in left
    requires AccVisited(scalar, curvature, docs, d, left)
    requires forall cvr, s ::
               AccAt(scalar', curvature', cvr, s) == AccAt(scalar, curvature, cvr, s) + KeyFigure(d, t, cvr, s)
    ensures AccVisited(scalar', curvature', docs, d, left - {t})
  {
    forall cvr, s
      ensures AccAt(scalar', curvature', cvr, s) == RecomputeKind(docs, cvr, s) + VisitedKind(d, cvr, s, left - {t})
    {
      VisitStep(d, s, left, t);
      assert AccAt(scalar, curvature, cvr, s) == RecomputeKind(docs, cvr, s) + VisitedKind(d, cvr, s, left);
    }
  }

  class Accumulators {
    var scalar: ScalarMap
    var curvature: CurvatureMap

    constructor ()
      ensures scalar == map[] && curvature == map[]
    {
      scalar, curvature := map[], map[];
    }

    method BumpScalar(key: string, ws: real)
      requires Bumped(scalar, curvature)
      modifies this`scalar
      ensures Bumped(scalar, curvature)
      ensures forall s ::
                ScalarAt(scalar, s) == ScalarAt(old(scalar), s) + if s.key == key then ScalarField(ws, s.field) else 0.0
    {
      var a := if key in scalar then scalar[key] else ScalarAcc(0.0, 0.0, 0.0);
      scalar := scalar[key := ScalarAcc(a.sumWs + ws, a.sumWsSq + Square(ws), a.count + 1.0)];
    }

    method BumpCurv(key: string, up: real, down: real)
      requires Bumped(scalar, curvature)
      modifies this`curvature
      ensures Bumped(scalar, curvature)
      ensures forall s ::
                CurvatureAt(curvature, s)
                == CurvatureAt(old(curvature), s) + if s.key == key then CurvatureField(up, down, s.field) else 0.0
    {
      var a := if key in curvature then curvature[key] else CurvatureAcc(0.0, 0.0, 0.0, 0.0, 0.0);
      curvature := curvature[key := CurvatureAcc(a.sumWsUp + up, a.sumWsUpSq + Square(up), a.sumWsDown + down,
                                                 a.sumWsDownSq + Square(down), a.count + 1.0)];
    }

    method AccumulateRollup(d: Doc, ghost docs: seq<Doc>)
      requires Bumped(scalar, curvature) && AccIs(scalar, curvature, docs)
      modifies this
      ensures Bumped(scalar, curvature) && AccIs(scalar, curvature, docs + [d])
    {
      if !HasGroup(d) {
        AccDone(scalar, curvature, docs, d);
        return;
      }
      if d.sensType == "Curvature" {
        AccumulateCurvature(d, docs);
      } else {
        AccumulateScalar(d, docs);
      }
      AccDone(scalar, curvature, docs, d);
    }

    method AccumulateCurvature(d: Doc, ghost docs: seq<Doc>)
      requires Bumped(scalar, curvature) && AccIs(scalar, curvature, docs) && HasGroup(d) && d.sensType == "Curvature"
      modifies this`curvature
      ensures Bumped(scalar, curvature) && AccVisited(scalar, curvature, docs, d, {})
    {
      if d.cvrUp.Some? && d.cvrDown.Some? {
        BumpCurv(BaseKey(GroupOf(d)), d.cvrUp.value, d.cvrDown.value);
      }
      if d.cvrUpPerTenor.Some? && d.cvrDownPerTenor.Some? {
        AccumulateCurvatureTenors(d, d.cvrUpPerTenor.value, d.cvrDownPerTenor.value, docs);
      }
    }

    method AccumulateScalar(d: Doc, ghost docs: seq<Doc>)
      requires Bumped(scalar, curvature) && AccIs(scalar, curvature, docs) && HasGroup(d) && d.sensType != "Curvature"
      modifies this`scalar
      ensures Bumped(scalar, curvature) && AccVisited(scalar, curvature, docs, d, {})
    {
      if d.value.Some? {
        BumpScalar(BaseKey(GroupOf(d)), d.value.value);
      }
      if d.perTenor.Some? {
        AccumulateScalarTenors(d, d.perTenor.value, docs);
      }
    }

    method AccumulateScalarTenors(d: Doc, m: TenorMap, ghost docs: seq<Doc>)
      requires Bumped(scalar, curvature) && HasGroup(d) && d.sensType != "Curvature" && d.perTenor == Some(m)
      requires AccVisited(scalar, curvature, docs, d, m.Keys)
      modifies this`scalar
      ensures Bumped(scalar, curvature) && AccVisited(scalar, curvature, docs, d, {})
    {
      var left := m.Keys;
      while left != {}
        invariant left <= m.Keys && Bumped(scalar, curvature) && AccVisited(scalar, curvature, docs, d, left)
        decreases |left|
      {
        var t :| t in left;
        ghost var scalar0 := scalar;
        BumpScalar(TenorKey(GroupOf(d), t), m[t]);
        AccTenor(scalar0, curvature, scalar, curvature, docs, d, left, t);
        left := left - {t};
      }
    }

    method AccumulateCurvatureTenors(d: Doc, ups: TenorMap, downs: TenorMap, ghost docs: seq<Doc>)
      requires Bumped(scalar, curvature) && HasGroup(d) && d.sensType == "Curvature"
      requires d.cvrUpPerTenor == Some(ups) && d.cvrDownPerTenor == Some(downs)
      requires AccVisited(scalar, curvature, docs, d, ups.Keys)
      modifies this`curvature
      ensures Bumped(scalar, curvature) && AccVisited(scalar, curvature, docs, d, {})
    {
      var left := ups.Keys;
      while left != {}
        invariant left <= ups.Keys && Bumped(scalar, curvature) && AccVisited(scalar, curvature, docs, d, left)
        decreases |left|
      {
        var t :| t in left;
        ghost var curvature0 := curvature;
        if t in downs {
          BumpCurv(TenorKey(GroupOf(d), t), ups[t], downs[t]);
        }
        AccTenor(scalar, curvature0, scalar, curvature, docs, d, left, t);
        left := left - {t};
      }
    }
  }

  // ------------------------------------------------------------ the whole backfill

  ghost function Rebuilt(hashes: seq<Hash>): (docs: seq<Doc>)
    ensures |docs| == |hashes| && forall i | 0 <= i < |docs| :: docs[i] == Reconstruct(hashes[i])
  {
    seq(|hashes|, i requires 0 <= i < |hashes| => Reconstruct(hashes[i]))
  }

  lemma RebuiltSnoc(hashes: seq<Hash>, n: nat)
    requires n < |hashes|
    ensures Rebuilt(hashes[..n + 1]) == Rebuilt(hashes[..n]) + [Reconstruct(hashes[n])]
  {
  }

  /** A rollup hash some document of the kind counts towards. */
  ghost predicate Touched(docs: seq<Doc>, cvr: bool, key: string) {
    RecomputeKind(docs, cvr, Slot(key, Count)) > 0.0
  }

  /** Curvature hashes are written last, so where both kinds share a key theirs is the count. */
  ghost predicate BackfilledAt(store: Store, store': Store, docs: seq<Doc>, s: Slot) {
    Get(store', s)
    == if Touched(docs, true, s.key) && FieldOf(true, s.field) then RecomputeKind(docs, true, s)
       else if Touched(docs, false, s.key) && FieldOf(false, s.field) then RecomputeKind(docs, false, s)
       else Get(store, s)
  }

  function HSetScalar(store: Store, k: string, a: ScalarAcc): Store {
    store[Slot(k, SumWs) := a.sumWs][Slot(k, SumWsSq) := a.sumWsSq][Slot(k, Count) := a.count]
  }

  function HSetCurvature(store: Store, k: string, a: CurvatureAcc): Store {
    store[Slot(k, SumWsUp) := a.sumWsUp][Slot(k, SumWsUpSq) := a.sumWsUpSq][Slot(k, SumWsDown) := a.sumWsDown]
         [Slot(k, SumWsDownSq) := a.sumWsDownSq][Slot(k, Count) := a.count]
  }

  method WriteScalar(store: Store, scalar: ScalarMap) returns (store': Store)
    ensures forall s ::
              Get(store', s)
              == if s.key in scalar && FieldOf(false, s.field) then ScalarAt(scalar, s) else Get(store, s)
  {
    store' := store;
    var left := scalar.Keys;
    while left != {}
      invariant left <= scalar.Keys
      invariant forall s ::
                  Get(store', s)
                  == if s.key in scalar && s.key !in left && FieldOf(false, s.field) then ScalarAt(scalar, s)
                     else Get(store, s)
      decreases |left|
    {
      var k :| k in left;
      store' := HSetScalar(store', k, scalar[k]);
      left := left - {k};
    }
  }

  method WriteCurvature(store: Store, curvature: CurvatureMap) returns (store': Store)
    ensures forall s ::
              Get(store', s)
              == if s.key in curvature && FieldOf(true, s.field) then CurvatureAt(curvature, s) else Get(store, s)
  {
    store' := store;
    var left := curvature.Keys;
    while left != {}
      invariant left <= curvature.Keys
      invariant forall s ::
                  Get(store', s)
                  == if s.key in curvature && s.key !in left && FieldOf(true, s.field) then CurvatureAt(curvature, s)
                     else Get(store, s)
      decreases |left|
    {
      var k :| k in left;
      store' := HSetCurvature(store', k, curvature[k]);
      left := left - {k};
    }
  }

  lemma TouchedExactly(scalar: ScalarMap, curvature: CurvatureMap, docs: seq<Doc>, key: string)
    requires Bumped(scalar, curvature) && AccIs(scalar, curvature, docs)
    ensures (Touched(docs, false, key) <==> key in scalar) && (Touched(docs, true, key) <==> key in curvature)
  {
    assert AccAt(scalar, curvature, false, Slot(key, Count)) == RecomputeKind(docs, false, Slot(key, Count));
    assert AccAt(scalar, curvature, true, Slot(key, Count)) == RecomputeKind(docs, true, Slot(key, Count));
  }

  /** `hashes` is what SCAN and HGETALL return, one reply for each stored document. */
  method BackfillRollups(hashes: seq<Hash>, store: Store) returns (store': Store)
    ensures forall s :: BackfilledAt(store, store', Rebuilt(hashes), s)
  {
    var acc := new Accumulators();
    forall cvr, s ensures RecomputeKind([], cvr, s) == 0.0 {}
    var n := 0;
    while n < |hashes|
      invariant n <= |hashes| && fresh(acc)
      invariant Bumped(acc.scalar, acc.curvature) && AccIs(acc.scalar, acc.curvature, Rebuilt(hashes[..n]))
    {
      var d := ReconstructDocFromHash(hashes[n]);
      acc.AccumulateRollup(d, Rebuilt(hashes[..n]));
      RebuiltSnoc(hashes, n);
      n := n + 1;
    }
    assert hashes[..n] == hashes;
    var middle := WriteScalar(store, acc.scalar);
    store' := WriteCurvature(middle, acc.curvature);
    WrittenBack(store, middle, store', acc.scalar, acc.curvature, Rebuilt(hashes));
  }

  lemma WrittenBack(store: Store, middle: Store, store': Store, scalar: ScalarMap, curvature: CurvatureMap,
      docs: seq<Doc>)
    requires Bumped(scalar, curvature) && AccIs(scalar, curvature, docs)
    requires forall s ::
               Get(middle, s)
               == if s.key in scalar && FieldOf(false, s.field) then ScalarAt(scalar, s) else Get(store, s)
    requires forall s ::
               Get(store', s)
               == if s.key in curvature && FieldOf(true, s.field) then CurvatureAt(curvature, s) else Get(middle, s)
    ensures forall s :: BackfilledAt(store, store', docs, s)
  {
    forall s ensures BackfilledAt(store, store', docs, s) {
      TouchedExactly(scalar, curvature, docs, s.key);
      assert AccAt(scalar, curvature, true, s) == RecomputeKind(docs, true, s);
      assert AccAt(scalar, curvature, false, s) == RecomputeKind(docs, false, s);
    }
  }

  // ------------------------------------------------------------ what the backfill leaves alone

  lemma ContributionCounts(d: Doc, s: Slot)
    ensures Contribution(d, Slot(s.key, Count)) == 0.0 || Contribution(d, Slot(s.key, Count)) == 1.0
    ensures Contribution(d, Slot(s.key, Count)) == 0.0 ==> Contribution(d, s) == 0.0
    ensures !FieldOf(d.sensType == "Curvature", s.field) ==> Contribution(d, s) == 0.0
  {
  }

  lemma {:induction false} UntouchedIsZero(docs: seq<Doc>, cvr: bool, s: Slot)
    ensures RecomputeKind(docs, cvr, Slot(s.key, Count)) >= 0.0
    ensures !Touched(docs, cvr, s.key) || !FieldOf(cvr, s.field) ==> RecomputeKind(docs, cvr, s) == 0.0
  {
    if docs != [] {
      UntouchedIsZero(docs[1..], cvr, s);
      ContributionCounts(docs[0], s);
    }
  }

  /** The field is written by the backfill. */
  ghost predicate Rewritten(docs: seq<Doc>, s: Slot) {
    || (Touched(docs, true, s.key) && FieldOf(true, s.field))
    || (Touched(docs, false, s.key) && FieldOf(false, s.field))
  }

  /** Documents of both kinds share the hash, and its count can only be that of one. */
  ghost predicate SharedCount(docs: seq<Doc>, s: Slot) {
    s.field == Count && Touched(docs, true, s.key) && Touched(docs, false, s.key)
  }

  /** A backfilled field is right unless it is a non-zero leftover no document counts towards, or a shared count. */
  lemma BackfillExactly(store: Store, store': Store, docs: seq<Doc>, s: Slot)
    requires BackfilledAt(store, store', docs, s)
    ensures Get(store', s) == Recompute(docs, s)
            <==> if Rewritten(docs, s) then !SharedCount(docs, s) else Get(store, s) == 0.0
  {
    KindsTogether(docs, s);
    UntouchedIsZero(docs, true, s);
    UntouchedIsZero(docs, false, s);
  }

  lemma {:induction false} TouchedBySome(docs: seq<Doc>, cvr: bool, key: string) returns (d: Doc)
    requires Touched(docs, cvr, key)
    ensures d in docs && IsKind(d, cvr) && InGroup(d, key)
  {
    if KindOf(cvr, Slot(key, Count))(docs[0]) != 0.0 {
      d := docs[0];
    } else {
      d := TouchedBySome(docs[1..], cvr, key);
    }
  }

  /** A type is a key's to tell unless a name contains a colon. */
  lemma ColonFreeCounts(docs: seq<Doc>, s: Slot)
    requires forall d | d in docs && HasGroup(d) :: ColonFree(GroupOf(d))
    ensures !SharedCount(docs, s)
  {
    if SharedCount(docs, s) {
      var d := TouchedBySome(docs, true, s.key);
      var e := TouchedBySome(docs, false, s.key);
      PlacedKey(d, s.key);
      PlacedKey(e, s.key);
      ColonFreeKeys(GroupOf(d), TenorAt(d, s.key), GroupOf(e), TenorAt(e, s.key));
    }
  }
}
