/** The generator's direct writer, which adds up a batch in memory before it sends one increment per field. */
module Writers {
  import opened Json
  import opened Sums
  import opened Docs
  import opened Keys
  import opened Rollup
  import opened SeenSets

  /** `after` is `before` plus the contribution of d to every field. */
  ghost predicate AddsDoc(before: Store, after: Store, d: Doc) {
    forall s :: Get(after, s) == Get(before, s) + Contribution(d, s)
  }

  ghost predicate AddsVisited(before: Store, after: Store, d: Doc, left: set<string>) {
    forall s :: Get(after, s) == Get(before, s) + Visited(d, s, left)
  }

  /** Redis plus the batch in hand is exactly what the rows so far amount to. */
  ghost predicate Balanced(store: Store, batch: Store, store0: Store, docs: seq<Doc>) {
    forall s :: Get(store, s) + Get(batch, s) == Get(store0, s) + Recompute(docs, s)
  }

  ghost predicate Flushed(store: Store, store0: Store, docs: seq<Doc>) {
    forall s :: Get(store, s) == Get(store0, s) + Recompute(docs, s)
  }

  lemma BalancedAdd(store: Store, batch: Store, batch': Store, store0: Store, docs: seq<Doc>, d: Doc)
    requires Balanced(store, batch, store0, docs) && AddsDoc(batch, batch', d)
    ensures Balanced(store, batch', store0, docs + [d])
  {
    forall s ensures Get(store, s) + Get(batch', s) == Get(store0, s) + Recompute(docs + [d], s) {
      SumBySnoc(ContributionTo(s), docs, d);
      assert Get(batch', s) == Get(batch, s) + Contribution(d, s);
    }
  }

  lemma BalancedSend(store: Store, store': Store, batch: Store, store0: Store, docs: seq<Doc>)
    requires Balanced(store, batch, store0, docs)
    requires forall s :: Get(store', s) == Get(store, s) + Get(batch, s)
    ensures Balanced(store', map[], store0, docs)
    ensures Flushed(store', store0, docs)
  {
    forall s ensures Get(store', s) == Get(store0, s) + Recompute(docs, s) && Get(map[], s) == 0.0 {
      assert Get(store, s) + Get(batch, s) == Get(store0, s) + Recompute(docs, s);
    }
  }

  // ------------------------------------------------------------ the SADDs a batch stands for

  function ClassSadds(rcs: set<string>): set<Sadd> { set rc | rc in rcs :: (SEEN_RISK_CLASS, rc) }

  function BucketSadds(m: map<string, set<string>>): set<Sadd> {
    set rc, bkt | rc in m && bkt in m[rc] :: (SeenBucketKey(rc), bkt)
  }

  function SensTypeSadds(m: map<string, set<string>>): set<Sadd> {
    set k, sens | k in m && sens in m[k] :: (SeenSensTypeKeyOf(FirstTwo(k)), sens)
  }

  function Members(m: map<string, set<string>>, k: string): set<string> { if k in m then m[k] else {} }

  lemma ClassSaddsAdd(rcs: set<string>, rc: string)
    ensures ClassSadds(rcs + {rc}) == ClassSadds(rcs) + {(SEEN_RISK_CLASS, rc)}
  {
  }

  lemma BucketSaddsAdd(m: map<string, set<string>>, rc: string, bkt: string)
    ensures BucketSadds(m[rc := Members(m, rc) + {bkt}]) == BucketSadds(m) + {(SeenBucketKey(rc), bkt)}
  {
    var m' := m[rc := Members(m, rc) + {bkt}];
    forall p | p in BucketSadds(m) + {(SeenBucketKey(rc), bkt)} ensures p in BucketSadds(m') {
      if p in BucketSadds(m) {
        var r, b :| r in m && b in m[r] && p == (SeenBucketKey(r), b);
        assert r in m' && b in m'[r];
      } else {
        assert rc in m' && bkt in m'[rc];
      }
    }
    forall p | p in BucketSadds(m') ensures p in BucketSadds(m) + {(SeenBucketKey(rc), bkt)} {
      var r, b :| r in m' && b in m'[r] && p == (SeenBucketKey(r), b);
      assert (r in m && b in m[r]) || (r == rc && b == bkt);
    }
  }

  lemma SensTypeSaddsAdd(m: map<string, set<string>>, k: string, sens: string)
    ensures SensTypeSadds(m[k := Members(m, k) + {sens}]) == SensTypeSadds(m) + {(SeenSensTypeKeyOf(FirstTwo(k)), sens)}
  {
    var m' := m[k := Members(m, k) + {sens}];
    forall p | p in SensTypeSadds(m) + {(SeenSensTypeKeyOf(FirstTwo(k)), sens)} ensures p in SensTypeSadds(m') {
      if p in SensTypeSadds(m) {
        var r, b :| r in m && b in m[r] && p == (SeenSensTypeKeyOf(FirstTwo(r)), b);
        assert r in m' && b in m'[r];
      } else {
        assert k in m' && sens in m'[k];
      }
    }
    forall p | p in SensTypeSadds(m') ensures p in SensTypeSadds(m) + {(SeenSensTypeKeyOf(FirstTwo(k)), sens)} {
      var r, b :| r in m' && b in m'[r] && p == (SeenSensTypeKeyOf(FirstTwo(r)), b);
      assert (r in m && b in m[r]) || (r == k && b == sens);
    }
  }

  function BatchSadds(rcs: set<string>, bkts: map<string, set<string>>, senses: map<string, set<string>>): set<Sadd> {
    ClassSadds(rcs) + BucketSadds(bkts) + SensTypeSadds(senses)
  }

  lemma BatchSaddsAdd(rcs: set<string>, bkts: map<string, set<string>>, senses: map<string, set<string>>, d: Doc)
    requires HasGroup(d)
    ensures var key := d.riskClass + ":" + d.bucket;
            BatchSadds(rcs + {d.riskClass}, bkts[d.riskClass := Members(bkts, d.riskClass) + {d.bucket}],
                       senses[key := Members(senses, key) + {d.sensType}])
            == BatchSadds(rcs, bkts, senses) + SaddsBySplit(d)
  {
    ClassSaddsAdd(rcs, d.riskClass);
    BucketSaddsAdd(bkts, d.riskClass, d.bucket);
    SensTypeSaddsAdd(senses, d.riskClass + ":" + d.bucket, d.sensType);
  }

  lemma EmptyBatch()
    ensures BatchSadds({}, map[], map[]) == {}
  {
  }

  ghost predicate SetsBalanced(sets: set<Sadd>, batch: set<Sadd>, sets0: set<Sadd>, docs: seq<Doc>) {
    sets + batch == sets0 + SeenBy(docs, SaddsBySplit)
  }

  lemma SetsBalancedAdd(sets: set<Sadd>, batch: set<Sadd>, batch': set<Sadd>, sets0: set<Sadd>, docs: seq<Doc>, d: Doc)
    requires SetsBalanced(sets, batch, sets0, docs) && batch' == batch + SaddsBySplit(d)
    ensures SetsBalanced(sets, batch', sets0, docs + [d])
  {
    assert (docs + [d])[..|docs|] == docs;
    assert sets + batch' == (sets + batch) + SaddsBySplit(d);
  }

  ghost predicate SetsFlushed(sets: set<Sadd>, sets0: set<Sadd>, docs: seq<Doc>) {
    sets == sets0 + SeenBy(docs, SaddsBySplit)
  }

  lemma SetsBalancedSend(sets: set<Sadd>, batch: set<Sadd>, sets': set<Sadd>, sets0: set<Sadd>, docs: seq<Doc>)
    requires SetsBalanced(sets, batch, sets0, docs) && sets' == sets + batch
    ensures SetsBalanced(sets', {}, sets0, docs) && SetsFlushed(sets', sets0, docs)
  {
    assert sets' + {} == sets';
  }

  class DirectWriter {
    const batchSize: nat
    // the batch being collected
    var rollup: Store
    var seenRc: set<string>
    var seenBktByRc: map<string, set<string>>
    var seenSensByRcBkt: map<string, set<string>>
    var count: nat
    // Redis
    var store: Store
    var sets: set<Sadd>
    // every row added so far, and what Redis held before the first
    ghost var history: seq<Doc>
    ghost const store0: Store
    ghost const sets0: set<Sadd>

    ghost predicate Valid()
      reads this
    {
      && Balanced(store, rollup, store0, history)
      && SetsBalanced(sets, BatchSadds(seenRc, seenBktByRc, seenSensByRcBkt), sets0, history)
      && (count == 0 ==> rollup == map[] && BatchSadds(seenRc, seenBktByRc, seenSensByRcBkt) == {})
    }

    constructor (batchSize: nat, store: Store, sets: set<Sadd>)
      ensures Valid() && history == [] && this.store == store && this.sets == sets && store0 == store && sets0 == sets
      ensures this.batchSize == if batchSize < 1 then 1 else batchSize
    {
      this.batchSize := if batchSize < 1 then 1 else batchSize;
      rollup, seenRc, seenBktByRc, seenSensByRcBkt, count := map[], {}, map[], map[], 0;
      this.store, this.sets, store0, sets0, history := store, sets, store, sets, [];
    }

    method Bump(s: Slot, delta: real)
      modifies this`rollup
      ensures forall s' :: Get(rollup, s') == Get(old(rollup), s') + if s' == s then delta else 0.0
    {
      rollup := rollup[s := Get(rollup, s) + delta];
    }

    method BumpScalar(k: string, v: real)
      modifies this`rollup
      ensures forall s :: Get(rollup, s) == Get(old(rollup), s) + if s.key == k then ScalarField(v, s.field) else 0.0
    {
      Bump(Slot(k, SumWs), v);
      Bump(Slot(k, SumWsSq), Square(v));
      Bump(Slot(k, Count), 1.0);
    }

    method BumpCurvature(k: string, u: real, d: real)
      modifies this`rollup
      ensures forall s ::
              Get(rollup, s) == Get(old(rollup), s) + if s.key == k then CurvatureField(u, d, s.field) else 0.0
    {
      BumpPair(k, SumWsUp, u, SumWsUpSq);
      BumpPair(k, SumWsDown, d, SumWsDownSq);
      Bump(Slot(k, Count), 1.0);
    }

    method BumpPair(k: string, f: Field, v: real, sq: Field)
      requires f != sq
      modifies this`rollup
      ensures forall s ::
              Get(rollup, s)
              == Get(old(rollup), s) + (if s == Slot(k, f) then v else if s == Slot(k, sq) then Square(v) else 0.0)
    {
      Bump(Slot(k, f), v);
      Bump(Slot(k, sq), Square(v));
    }

    method AccumulateRollup(d: Doc)
      modifies this`rollup
      ensures AddsDoc(old(rollup), rollup, d)
    {
      if !HasGroup(d) { return; }
      var k := BaseKey(GroupOf(d));
      if d.sensType == "Curvature" {
        if d.cvrUp.Some? && d.cvrDown.Some? {
          BumpCurvature(k, d.cvrUp.value, d.cvrDown.value);
        }
        if d.cvrUpPerTenor.Some? && d.cvrDownPerTenor.Some? {
          AccumulateCurvatureTenors(d, d.cvrUpPerTenor.value, d.cvrDownPerTenor.value, old(rollup));
        }
      } else {
        if d.value.Some? {
          BumpScalar(k, d.value.value);
        }
        if d.perTenor.Some? {
          AccumulateScalarTenors(d, d.perTenor.value, old(rollup));
        }
      }
    }

    method AccumulateScalarTenors(d: Doc, m: TenorMap, ghost before: Store)
      requires HasGroup(d) && d.sensType != "Curvature" && d.perTenor == Some(m)
      requires AddsVisited(before, rollup, d, m.Keys)
      modifies this`rollup
      ensures AddsDoc(before, rollup, d)
    {
      var left := m.Keys;
      while left != {}
        invariant left <= m.Keys && AddsVisited(before, rollup, d, left)
        decreases |left|
      {
        var t :| t in left;
        ghost var here := rollup;
        BumpScalar(TenorKey(GroupOf(d), t), m[t]);
        forall s ensures Get(rollup, s) == Get(before, s) + Visited(d, s, left - {t}) {
          VisitStep(d, s, left, t);
          assert Get(here, s) == Get(before, s) + Visited(d, s, left);
        }
        left := left - {t};
      }
    }

    method AccumulateCurvatureTenors(d: Doc, ups: TenorMap, downs: TenorMap, ghost before: Store)
      requires HasGroup(d) && d.sensType == "Curvature" && d.cvrUpPerTenor == Some(ups)
               && d.cvrDownPerTenor == Some(downs)
      requires AddsVisited(before, rollup, d, ups.Keys)
      modifies this`rollup
      ensures AddsDoc(before, rollup, d)
    {
      var left := ups.Keys;
      while left != {}
        invariant left <= ups.Keys && AddsVisited(before, rollup, d, left)
        decreases |left|
      {
        var t :| t in left;
        ghost var here := rollup;
        if t in downs {
          BumpCurvature(TenorKey(GroupOf(d), t), ups[t], downs[t]);
        }
        forall s ensures Get(rollup, s) == Get(before, s) + Visited(d, s, left - {t}) {
          VisitStep(d, s, left, t);
          assert Get(here, s) == Get(before, s) + Visited(d, s, left);
        }
        left := left - {t};
      }
    }

    method AccumulateSeen(d: Doc)
      modifies this`seenRc, this`seenBktByRc, this`seenSensByRcBkt
      ensures BatchSadds(seenRc, seenBktByRc, seenSensByRcBkt)
           == old(BatchSadds(seenRc, seenBktByRc, seenSensByRcBkt)) + SaddsBySplit(d)
    {
      if !HasGroup(d) { return; }
      BatchSaddsAdd(seenRc, seenBktByRc, seenSensByRcBkt, d);
      seenRc := seenRc + {d.riskClass};
      var bs := Members(seenBktByRc, d.riskClass);
      seenBktByRc := seenBktByRc[d.riskClass := bs + {d.bucket}];
      var key := d.riskClass + ":" + d.bucket;
      var ss := Members(seenSensByRcBkt, key);
      seenSensByRcBkt := seenSensByRcBkt[key := ss + {d.sensType}];
    }

    /** Send the batch: one increment per touched field, one SADD per distinct member. */
    method Dispatch()
      requires Valid()
      modifies this
      ensures Valid() && history == old(history) && count == 0
      ensures Flushed(store, store0, history)
      ensures SetsFlushed(sets, sets0, history)
    {
      if count == 0 {
        BalancedSend(store, store, rollup, store0, history);
        SetsBalancedSend(sets, {}, sets, sets0, history);
      } else {
        SendBatch(BatchSadds(seenRc, seenBktByRc, seenSensByRcBkt));
      }
    }

    method SendBatch(sadds: set<Sadd>)
      requires Balanced(store, rollup, store0, history) && SetsBalanced(sets, sadds, sets0, history)
      modifies this
      ensures Valid() && history == old(history) && count == 0
      ensures Flushed(store, store0, history)
      ensures SetsFlushed(sets, sets0, history)
    {
      ghost var store1, sets1 := store, sets;
      SendIncrements(rollup);
      sets := sets + sadds;
      BalancedSend(store1, store, rollup, store0, history);
      SetsBalancedSend(sets1, sadds, sets, sets0, history);
      rollup, seenRc, seenBktByRc, seenSensByRcBkt, count := map[], {}, map[], map[], 0;
      EmptyBatch();
    }

    method SendIncrements(batch: Store)
      modifies this`store
      ensures forall s :: Get(store, s) == Get(old(store), s) + Get(batch, s)
    {
      var left := batch.Keys;
      while left != {}
        invariant left <= batch.Keys
        invariant forall s :: Get(store, s) == Get(old(store), s) + if s in left then 0.0 else Get(batch, s)
        decreases |left|
      {
        var s :| s in left;
        store := HIncrByFloat(store, Incr(s, batch[s]));
        left := left - {s};
      }
    }

    method CollectRollup(d: Doc)
      requires Balanced(store, rollup, store0, history)
      modifies this`rollup
      ensures Balanced(store, rollup, store0, history + [d])
    {
      ghost var before := rollup;
      AccumulateRollup(d);
      BalancedAdd(store, before, rollup, store0, history, d);
    }

    method CollectSeen(d: Doc)
      requires SetsBalanced(sets, BatchSadds(seenRc, seenBktByRc, seenSensByRcBkt), sets0, history)
      modifies this`seenRc, this`seenBktByRc, this`seenSensByRcBkt
      ensures SetsBalanced(sets, BatchSadds(seenRc, seenBktByRc, seenSensByRcBkt), sets0, history + [d])
    {
      ghost var before := BatchSadds(seenRc, seenBktByRc, seenSensByRcBkt);
      AccumulateSeen(d);
      SetsBalancedAdd(sets, before, BatchSadds(seenRc, seenBktByRc, seenSensByRcBkt), sets0, history, d);
    }

    /** Collect one row; a full batch goes out at once. */
    method Add(d: Doc)
      requires Valid()
      modifies this
      ensures Valid() && history == old(history) + [d]
    {
      CollectRollup(d);
      CollectSeen(d);
      count := count + 1;
      history := history + [d];
      if count >= batchSize {
        Dispatch();
      }
    }
  }

  method AddThenMaybeFlush(w: DirectWriter, d: Doc, flush: bool)
    requires w.Valid()
    modifies w
    ensures w.Valid() && w.history == old(w.history) + [d]
  {
    w.Add(d);
    if flush {
      w.Dispatch();
    }
  }

  /**
   Adds and flushes in any interleaving: the rows below, cut into batches by `batchSize` and `flushAfter`. The sets end
   with the members of the split keys, for names without a colon those a row-by-row writer adds.
   */
  method WriteDirect(docs: seq<Doc>, batchSize: nat, flushAfter: set<nat>, store: Store, sets: set<Sadd>)
    returns (store': Store, sets': set<Sadd>)
    ensures Flushed(store', store, docs)
    ensures SetsFlushed(sets', sets, docs)
    ensures (forall d | d in docs && HasGroup(d) :: ColonFreeBucket(d)) ==> sets' == sets + SeenBy(docs, SaddsOf)
  {
    var w := new DirectWriter(batchSize, store, sets);
    var n := 0;
    while n < |docs|
      invariant n <= |docs| && fresh(w) && w.Valid() && w.history == docs[..n]
    {
      AddThenMaybeFlush(w, docs[n], n in flushAfter);
      assert docs[..n + 1] == docs[..n] + [docs[n]];
      n := n + 1;
    }
    assert docs[..n] == docs;
    w.Dispatch();
    store', sets' := w.store, w.sets;
    if forall d | d in docs && HasGroup(d) :: ColonFreeBucket(d) { SeenSetsAgree(docs); }
  }
}
