/**
 The same rows through the three writers: row by row, through the batching writer, and by a backfill from the HASHes
 they left behind. Ids may repeat, and documents may change on their way through a HASH.
 */
module ThreeWriters {
  import opened Sums
  import opened Docs
  import opened Rollup
  import opened HashForm
  import opened RoundTrip
  import opened SeenSets
  import opened Writers
  import opened Deltas
  import opened Ingest
  import opened Backfill
  import opened Reconcile

  /** A document and the id it is stored under. */
  datatype Written = Written(id: Id, doc: Doc)

  function DocsOf(rows: seq<Written>): (docs: seq<Doc>)
    ensures |docs| == |rows| && forall i | 0 <= i < |rows| :: docs[i] == rows[i].doc
  {
    seq(|rows|, i requires 0 <= i < |rows| => rows[i].doc)
  }

  /** The HASHes after one HSET for each row. */
  function StoredBy(rows: seq<Written>): map<Id, Hash> {
    if rows == [] then map[]
    else
      var before, last := StoredBy(rows[..|rows| - 1]), rows[|rows| - 1];
      before[last.id := HashAt(before, last.id) + Flatten(last.doc)]
  }

  // ------------------------------------------------------------ one more row

  lemma StoredStep(before: seq<Written>, last: Written, s: Slot)
    ensures var h := HashAt(StoredBy(before), last.id);
            SumMap(WorthAt(s), StoredBy(before + [last]))
            == SumMap(WorthAt(s), StoredBy(before)) - Worth(h, s) + Worth(h + Flatten(last.doc), s)
  {
    assert (before + [last])[..|before|] == before;
    NothingIsWorthless(s);
    SumMapUpdate(WorthAt(s), StoredBy(before), last.id, HashAt(StoredBy(before), last.id) + Flatten(last.doc));
  }

  lemma RecomputeStep(before: seq<Written>, last: Written, s: Slot)
    ensures Recompute(DocsOf(before + [last]), s) == Recompute(DocsOf(before), s) + Contribution(last.doc, s)
  {
    assert DocsOf(before + [last]) == DocsOf(before) + [last.doc];
    SumBySnoc(ContributionTo(s), DocsOf(before), last.doc);
  }

  /**
   Row by row and in batches every field is the recomputation over the rows; the backfill, from a scan in any order,
   is what the stored HASHes are worth, but for a count both kinds share.
   */
  method WriteThreeWays(rows: seq<Written>, batchSize: nat, flushAfter: set<nat>, ghost ids: seq<Id>,
      scanned: seq<Hash>)
    returns (byRow: Store, byBatch: Store, byBackfill: Store)
    requires IsScan(ids, scanned, StoredBy(rows))
    ensures forall s :: Get(byRow, s) == Get(byBatch, s) == Recompute(DocsOf(rows), s)
    ensures forall s ::
              Get(byBackfill, s) == if SharedCount(Rebuilt(scanned), s) then RecomputeKind(Rebuilt(scanned), true, s)
                                    else SumMap(WorthAt(s), StoredBy(rows))
  {
    byRow := IngestRows(map[], DocsOf(rows));
    var sets: set<Sadd>;
    byBatch, sets := WriteDirect(DocsOf(rows), batchSize, flushAfter, map[], {});
    assert forall s :: Get(byBatch, s) == Get(map[], s) + Recompute(DocsOf(rows), s);
    byBackfill := BackfillRollups(scanned, map[]);
    forall s
      ensures Get(byBackfill, s) == if SharedCount(Rebuilt(scanned), s) then RecomputeKind(Rebuilt(scanned), true, s)
                                    else SumMap(WorthAt(s), StoredBy(rows))
    {
      assert BackfilledAt(map[], byBackfill, Rebuilt(scanned), s);
      BackfillExactly(map[], byBackfill, Rebuilt(scanned), s);
      ScanWorth(ids, scanned, StoredBy(rows), s);
    }
  }

  // ------------------------------------------------------------ when the three agree

  /** The stored HASHes are worth what the rows add up to. */
  ghost predicate Agree(rows: seq<Written>) {
    forall s :: SumMap(WorthAt(s), StoredBy(rows)) == Recompute(DocsOf(rows), s)
  }

  ghost predicate AlwaysAgree(rows: seq<Written>) { forall n | 0 <= n <= |rows| :: Agree(rows[..n]) }

  /** The row counts nowhere at the key, and its HASH is worth there what it was. */
  ghost predicate LeavesAlone(h: Hash, d: Doc, key: string) {
    forall f :: Contribution(d, Slot(key, f)) == 0.0 && Worth(h + Flatten(d), Slot(key, f)) == Worth(h, Slot(key, f))
  }

  /** The HASH was worth nothing at the key, and becomes worth what the row counts there. */
  ghost predicate StartsAfresh(h: Hash, d: Doc, key: string) {
    forall f :: Worth(h, Slot(key, f)) == 0.0 && Worth(h + Flatten(d), Slot(key, f)) == Contribution(d, Slot(key, f))
  }

  ghost predicate Fits(h: Hash, d: Doc) { forall key :: LeavesAlone(h, d, key) || StartsAfresh(h, d, key) }

  /** The worth moves by the contribution in every field. */
  ghost predicate InStep(h: Hash, d: Doc) {
    forall s :: Worth(h + Flatten(d), s) == Worth(h, s) + Contribution(d, s)
  }

  /** A document counts once or not at all at a key, so a write in step lands on nothing or adds nothing. */
  lemma InStepExactly(h: Hash, d: Doc)
    ensures InStep(h, d) <==> Fits(h, d)
  {
    if InStep(h, d) {
      forall key ensures LeavesAlone(h, d, key) || StartsAfresh(h, d, key) { OneOrTheOther(h, d, key); }
    } else {
      var s :| Worth(h + Flatten(d), s) != Worth(h, s) + Contribution(d, s);
      assert s == Slot(s.key, s.field);
      assert !LeavesAlone(h, d, s.key) && !StartsAfresh(h, d, s.key);
    }
  }

  lemma OneOrTheOther(h: Hash, d: Doc, key: string)
    requires InStep(h, d)
    ensures LeavesAlone(h, d, key) || StartsAfresh(h, d, key)
  {
    var s := Slot(key, Count);
    ContributionCounts(Reconstruct(h), s);
    ContributionCounts(Reconstruct(h + Flatten(d)), s);
    ContributionCounts(d, s);
    assert Worth(h + Flatten(d), s) == Worth(h, s) + Contribution(d, s);
    forall f
      ensures Contribution(d, s) == 0.0 ==> Contribution(d, Slot(key, f)) == 0.0
      ensures Worth(h, s) == 0.0 ==> Worth(h, Slot(key, f)) == 0.0
      ensures Worth(h + Flatten(d), Slot(key, f)) == Worth(h, Slot(key, f)) + Contribution(d, Slot(key, f))
    {
      ContributionCounts(d, Slot(key, f));
      ContributionCounts(Reconstruct(h), Slot(key, f));
    }
  }

  lemma AgreeNext(before: seq<Written>, last: Written, rows: seq<Written>)
    requires rows == before + [last] && Agree(before)
    ensures Agree(rows) <==> InStep(HashAt(StoredBy(before), last.id), last.doc)
  {
    var h, d := HashAt(StoredBy(before), last.id), last.doc;
    forall s
      ensures SumMap(WorthAt(s), StoredBy(rows)) - Recompute(DocsOf(rows), s)
              == Worth(h + Flatten(d), s) - Worth(h, s) - Contribution(d, s)
    {
      StoredStep(before, last, s);
      RecomputeStep(before, last, s);
    }
    if Agree(rows) {
      forall s ensures Worth(h + Flatten(d), s) == Worth(h, s) + Contribution(d, s) {
        assert SumMap(WorthAt(s), StoredBy(rows)) == Recompute(DocsOf(rows), s);
      }
    }
  }

  /** The HASH a row is written over. */
  function Under(rows: seq<Written>, i: nat): Hash
    requires i < |rows|
  {
    HashAt(StoredBy(rows[..i]), rows[i].id)
  }

  ghost predicate AllFit(rows: seq<Written>) { forall i | 0 <= i < |rows| :: Fits(Under(rows, i), rows[i].doc) }

  lemma {:induction false} FittingRowsAgree(rows: seq<Written>, n: nat)
    requires n <= |rows| && AllFit(rows)
    ensures Agree(rows[..n])
  {
    if n > 0 {
      FittingRowsAgree(rows, n - 1);
      InStepExactly(Under(rows, n - 1), rows[n - 1].doc);
      assert Fits(Under(rows, n - 1), rows[n - 1].doc);
      AgreeNext(rows[..n - 1], rows[n - 1], rows[..n]);
    }
  }

  lemma AgreeingRowFits(rows: seq<Written>, i: nat)
    requires i < |rows| && Agree(rows[..i]) && Agree(rows[..i + 1])
    ensures Fits(Under(rows, i), rows[i].doc)
  {
    AgreeNext(rows[..i], rows[i], rows[..i + 1]);
    InStepExactly(Under(rows, i), rows[i].doc);
  }

  /**
   The writers agree after every row and in every field iff, at every key, every row either adds nothing and leaves
   the worth of its HASH alone, or lands on a HASH worth nothing and makes it worth what it adds. Ids may repeat.
   */
  lemma WritersAgreeExactly(rows: seq<Written>)
    ensures AlwaysAgree(rows) <==> AllFit(rows)
  {
    if AllFit(rows) {
      forall n | 0 <= n <= |rows| ensures Agree(rows[..n]) { FittingRowsAgree(rows, n); }
    }
    if AlwaysAgree(rows) {
      forall i | 0 <= i < |rows| ensures Fits(Under(rows, i), rows[i].doc) { AgreeingRowFits(rows, i); }
    }
  }

  // ------------------------------------------------------------ distinct ids

  ghost predicate DistinctIds(rows: seq<Written>) { forall i, j | 0 <= i < j < |rows| :: rows[i].id != rows[j].id }

  /** The documents the HASH form carries, told from the document. */
  ghost predicate SurvivesStorage(d: Doc) {
    HasGroup(d) ==> if KnownType(d.sensType) then Faithful(d) else d.value.None?
  }

  lemma SurvivesExactly(d: Doc)
    requires Enriched(d)
    ensures RoundTrips(d) <==> SurvivesStorage(d)
  {
    if !HasGroup(d) {
      NoGroupRoundTrips(d);
    } else if KnownType(d.sensType) {
      RoundTripExactly(d);
    } else {
      OtherTypeRoundTrip(d);
    }
  }

  lemma {:induction false} NotStoredBefore(rows: seq<Written>, id: Id)
    requires forall i | 0 <= i < |rows| :: rows[i].id != id
    ensures id !in StoredBy(rows)
  {
    if rows != [] {
      NotStoredBefore(rows[..|rows| - 1], id);
    }
  }

  lemma FreshFitsExactly(d: Doc)
    ensures Fits(map[], d) <==> RoundTrips(d)
  {
    assert map[] + Flatten(d) == Flatten(d);
    InStepExactly(map[], d);
    forall s ensures Worth(map[], s) == 0.0 { NothingIsWorthless(s); }
    if InStep(map[], d) {
      forall s ensures Contribution(Reconstruct(Flatten(d)), s) == Contribution(d, s) {
        assert Worth(map[] + Flatten(d), s) == Worth(map[], s) + Contribution(d, s);
      }
    }
  }

  ghost predicate AllSurvive(rows: seq<Written>) { forall i | 0 <= i < |rows| :: SurvivesStorage(rows[i].doc) }

  /** Under distinct ids the writers agree after every row and in every field iff every document survives its HASH. */
  lemma AgreeExactly(rows: seq<Written>)
    requires DistinctIds(rows) && forall i | 0 <= i < |rows| :: Enriched(rows[i].doc)
    ensures AlwaysAgree(rows) <==> AllSurvive(rows)
  {
    WritersAgreeExactly(rows);
    forall i | 0 <= i < |rows|
      ensures Fits(Under(rows, i), rows[i].doc) <==> SurvivesStorage(rows[i].doc)
    {
      NotStoredBefore(rows[..i], rows[i].id);
      FreshFitsExactly(rows[i].doc);
      SurvivesExactly(rows[i].doc);
    }
  }

  /** A row that counts at a key where the HASH it is written over is already worth something breaks the agreement. */
  lemma RewritingBreaksAgreement(rows: seq<Written>, i: nat, s: Slot)
    requires i < |rows| && s.field == Count
    requires Contribution(rows[i].doc, s) > 0.0 && Worth(Under(rows, i), s) > 0.0
    ensures !AlwaysAgree(rows)
  {
    WritersAgreeExactly(rows);
    var h, d := Under(rows, i), rows[i].doc;
    assert s == Slot(s.key, Count);
    assert !LeavesAlone(h, d, s.key) && !StartsAfresh(h, d, s.key);
    assert !Fits(h, d);
  }

  lemma WrittenOnce(id: Id, d: Doc, s: Slot)
    requires RoundTrips(d)
    ensures var rows := [Written(id, d)];
            && Recompute(DocsOf(rows), s) == SumMap(WorthAt(s), StoredBy(rows)) == Contribution(d, s)
            && StoredBy(rows) == map[id := Flatten(d)]
  {
    var row := Written(id, d);
    NothingIsWorthless(s);
    assert map[] + Flatten(d) == Flatten(d) && [row] == [] + [row] && [row][..0] == [];
    RecomputeStep([], row, s);
    StoredStep([], row, s);
  }

  /** A document written twice under one id counts twice row by row and once in the backfill. */
  lemma RewrittenCountsTwice(id: Id, d: Doc, s: Slot)
    requires RoundTrips(d)
    ensures var rows := [Written(id, d), Written(id, d)];
            Recompute(DocsOf(rows), s) == 2.0 * Contribution(d, s)
            && SumMap(WorthAt(s), StoredBy(rows)) == Contribution(d, s)
  {
    var row := Written(id, d);
    WrittenOnce(id, d, s);
    assert Flatten(d) + Flatten(d) == Flatten(d) && [row, row] == [row] + [row];
    RecomputeStep([row], row, s);
    StoredStep([row], row, s);
  }
}
