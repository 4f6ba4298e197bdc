/** One consumer taking one entry through the protocol, as the retry loops of the batch processor do. */
module Consumer {
  import opened Sums
  import opened Docs
  import opened Rollup
  import opened HashForm
  import opened RoundTrip
  import opened Deltas
  import opened Ingest
  import opened Runs
  import opened Reconcile
  import opened Tracking

  predicate Clash(clashes: seq<bool>, n: nat) { n < |clashes| && clashes[n] }

  /** One of the first attempt and its eight retries goes undisturbed. */
  predicate GetsThrough(clashes: seq<bool>) { exists n | 0 <= n < 9 :: !Clash(clashes, n) }

  /** `clashes[n]` says that somebody touched the watched key during attempt n. */
  method DocumentPhase(stream: Stream, st: State, c: nat, clashes: seq<bool>, ghost first: State, ghost before: Trace)
    returns (cur: State, committed: bool, ghost t: Trace)
    requires c < |st.pcs| && st.pcs[c].Start? && st.pcs[c].tries == 0
    requires Traces(stream, before, c, first, st)
    ensures Traces(stream, t, c, first, cur) && |cur.pcs| == |st.pcs|
    ensures cur.acked == st.acked && cur.markers == st.markers && cur.store == st.store && cur.applied == st.applied
    ensures committed <==> GetsThrough(clashes)
    ensures !committed ==> cur.pcs[c].Idle? && cur.docs == st.docs
    ensures committed ==>
      var job := st.pcs[c].job;
      && cur.docs == st.docs[job.id := HashAt(st.docs, job.id) + Flatten(job.doc)]
      && cur.pcs[c] == if HasGroup(job.doc) then Stored(job, 0, HashAt(st.docs, job.id)) else Tail(job)
  {
    var job := st.pcs[c].job;
    cur, committed, t := st, false, before;
    var tries := 0;
    while tries <= MAX_WATCH_RETRIES && !committed
      invariant tries <= MAX_WATCH_RETRIES + 1 && Traces(stream, t, c, first, cur) && |cur.pcs| == |st.pcs|
      invariant cur.acked == st.acked && cur.markers == st.markers && cur.store == st.store && cur.applied == st.applied
      invariant !committed ==> cur.docs == st.docs && forall n | 0 <= n < tries :: Clash(clashes, n)
      invariant !committed ==> cur.pcs[c] == if tries <= MAX_WATCH_RETRIES then Start(job, tries) else Idle
      invariant committed ==> tries <= MAX_WATCH_RETRIES && !Clash(clashes, tries)
      invariant committed ==> cur.docs == st.docs[job.id := HashAt(st.docs, job.id) + Flatten(job.doc)]
      invariant committed
                ==> cur.pcs[c] == if HasGroup(job.doc) then Stored(job, 0, HashAt(st.docs, job.id)) else Tail(job)
      decreases MAX_WATCH_RETRIES + 1 - tries, !committed
    {
      var snap, version := HashAt(cur.docs, job.id), VersionAt(cur.versions, job.id);
      var watched := Moved(cur, c, Watching(job, tries, snap, version));
      ExtendTraces(stream, t, c, first, cur, Watch1(c), watched);
      t := Extend(t, Watch1(c), watched);
      if Clash(clashes, tries) {
        cur := Moved(watched, c, if tries < MAX_WATCH_RETRIES then Start(job, tries + 1) else Idle);
        ExtendTraces(stream, t, c, first, watched, Abort1(c), cur);
        t := Extend(t, Abort1(c), cur);
        tries := tries + 1;
      } else {
        cur := Moved(watched, c, if HasGroup(job.doc) then Stored(job, 0, snap) else Tail(job))
               .(docs := watched.docs[job.id := snap + Flatten(job.doc)],
                   versions := watched.versions[job.id := version + 1]);
        ExtendTraces(stream, t, c, first, watched, Exec1(c), cur);
        t := Extend(t, Exec1(c), cur);
        committed := true;
      }
    }
  }

  /** The difference is computed from the HASH read in the first phase and sent with the marker. */
  method RollupPhase(stream: Stream, st: State, c: nat, clashes: seq<bool>, ghost first: State, ghost before: Trace)
    returns (cur: State, committed: bool, ghost t: Trace)
    requires c < |st.pcs| && st.pcs[c].Stored? && st.pcs[c].tries == 0
    requires Traces(stream, before, c, first, st)
    ensures Traces(stream, t, c, first, cur) && |cur.pcs| == |st.pcs|
    ensures cur.acked == st.acked && cur.docs == st.docs
    ensures committed <==> GetsThrough(clashes)
    ensures !committed ==> cur.pcs[c].Idle? && cur.store == st.store && cur.markers == st.markers
    ensures committed ==>
      var p := st.pcs[c];
      && cur.pcs[c] == Tail(p.job) && cur.markers == st.markers + {JobMarker(p.job)}
      && (if JobMarker(p.job) in st.markers then cur.store == st.store
         else Applied(st.store, cur.store, p.snap, p.job.doc))
  {
    var job, snap := st.pcs[c].job, st.pcs[c].snap;
    cur, committed, t := st, false, before;
    var tries := 0;
    while tries <= MAX_WATCH_RETRIES && !committed
      invariant tries <= MAX_WATCH_RETRIES + 1 && Traces(stream, t, c, first, cur) && |cur.pcs| == |st.pcs|
      invariant cur.acked == st.acked && cur.docs == st.docs
      invariant !committed
                ==> cur.store == st.store && cur.markers == st.markers && forall n | 0 <= n < tries :: Clash(clashes, n)
      invariant !committed ==> cur.pcs[c] == if tries <= MAX_WATCH_RETRIES then Stored(job, tries, snap) else Idle
      invariant committed ==> tries <= MAX_WATCH_RETRIES && !Clash(clashes, tries)
      invariant committed ==> cur.pcs[c] == Tail(job) && cur.markers == st.markers + {JobMarker(job)}
      invariant committed
                ==> if JobMarker(job) in st.markers then cur.store == st.store
                else Applied(st.store, cur.store, snap, job.doc)
      decreases MAX_WATCH_RETRIES + 1 - tries, !committed
    {
      var seen := JobMarker(job) in cur.markers;
      var watched := Moved(cur, c, Marking(job, tries, snap, seen));
      ExtendTraces(stream, t, c, first, cur, Watch2(c), watched);
      t := Extend(t, Watch2(c), watched);
      if Clash(clashes, tries) {
        cur := Moved(watched, c, if tries < MAX_WATCH_RETRIES then Stored(job, tries + 1, snap) else Idle);
        ExtendTraces(stream, t, c, first, watched, Abort2(c), cur);
        t := Extend(t, Abort2(c), cur);
        tries := tries + 1;
      } else {
        cur := CommitRollup(watched, c);
        ExtendTraces(stream, t, c, first, watched, Exec2(c), cur);
        t := Extend(t, Exec2(c), cur);
        committed := true;
      }
    }
  }

  method CommitRollup(st: State, c: nat) returns (st': State)
    requires c < |st.pcs| && st.pcs[c].Marking? && st.pcs[c].seen == (JobMarker(st.pcs[c].job) in st.markers)
    ensures Exec2Next(st, c, st')
  {
    var p := st.pcs[c];
    st' := Moved(st, c, Tail(p.job));
    if !p.seen {
      var prior := ParseOldContribution(p.snap, p.job.doc.riskClass, p.job.doc.sensType);
      var incrs := EmitRollupDelta(prior, p.job.doc);
      var store := Pipeline(st.store, incrs);
      assert forall s ::
          Get(store, s) == Get(st.store, s) + TotalAt(incrs, s) && TotalAt(incrs, s) == Sent(p.snap, p.job.doc, s);
      st' := st'.(store := store, markers := st.markers + {JobMarker(p.job)}, applied := st.applied + [p.job.entry]);
    }
  }

  /** An entry is acknowledged iff it is malformed or both phases got through within their retries. */
  method ProcessEntry(stream: Stream, st: State, c: nat, e: EntryId, clashes1: seq<bool>, clashes2: seq<bool>)
    returns (cur: State, processed: bool, ghost t: Trace)
    requires c < |st.pcs| && st.pcs[c].Idle? && e in stream && e !in st.acked
    ensures Traces(stream, t, c, st, cur) && |cur.pcs| == |st.pcs| && cur.pcs[c].Idle?
    ensures cur.acked == if processed then st.acked + {e} else st.acked
    ensures stream[e].Malformed? ==> processed && cur.docs == st.docs && cur.store == st.store
    ensures stream[e].Row? ==>
      (processed <==> GetsThrough(clashes1) && (HasGroup(stream[e].doc) ==> GetsThrough(clashes2)))
    ensures stream[e].Row? && processed ==>
      var h := HashAt(st.docs, stream[e].id);
      && cur.docs == st.docs[stream[e].id := h + Flatten(stream[e].doc)]
      && (if !HasGroup(stream[e].doc) || MarkerOf(stream, e) in st.markers then cur.store == st.store
          else Applied(st.store, cur.store, h, stream[e].doc))
  {
    t := Trace([st], []);
    if stream[e].Malformed? {
      cur, processed := st.(acked := st.acked + {e}), true;
      ExtendTraces(stream, t, c, st, st, Take(c, e), cur);
      t := Extend(t, Take(c, e), cur);
      return;
    }
    cur, processed := Moved(st, c, Start(Job(e, stream[e].id, stream[e].doc), 0)), false;
    ExtendTraces(stream, t, c, st, st, Take(c, e), cur);
    t := Extend(t, Take(c, e), cur);
    var committed;
    cur, committed, t := DocumentPhase(stream, cur, c, clashes1, st, t);
    if !committed { return; }
    if cur.pcs[c].Stored? {
      cur, committed, t := RollupPhase(stream, cur, c, clashes2, st, t);
      if !committed { return; }
    }
    cur, t := Acknowledge(stream, cur, c, st, t);
    processed := true;
  }

  method Acknowledge(stream: Stream, st: State, c: nat, ghost first: State, ghost before: Trace)
    returns (cur: State, ghost t: Trace)
    requires c < |st.pcs| && st.pcs[c].Tail? && Traces(stream, before, c, first, st)
    ensures cur == Moved(st, c, Idle).(acked := st.acked + {st.pcs[c].job.entry})
    ensures Traces(stream, t, c, first, cur)
  {
    cur := Moved(st, c, Idle).(acked := st.acked + {st.pcs[c].job.entry});
    ExtendTraces(stream, before, c, first, st, Ack(c), cur);
    t := Extend(before, Ack(c), cur);
  }

  // ------------------------------------------------------------ a crash between the two commits

  lemma ReplaySendsNothing(d: Doc, s: Slot)
    requires ScalarDoc(d)
    ensures Sent(map[] + Flatten(d), d, s) == 0.0
  {
    HeaderOfMerge(map[], d);
    ScalarMergeHasNoTenors(map[], d);
    ScalarNumbers(map[], d);
    NoTenorFieldsStrip(map[] + Flatten(d), d.riskClass);
  }

  lemma WrittenTwiceWorth(id: Id, d: Doc, s: Slot)
    requires ScalarDoc(d)
    ensures SumMap(WorthAt(s), map[id := (map[] + Flatten(d)) + Flatten(d)]) == Contribution(d, s)
  {
    var h := (map[] + Flatten(d)) + Flatten(d);
    SumMapRemove(WorthAt(s), map[id := h], id);
    assert map[id := h] - {id} == map[];
    ScalarMergeHasNoTenors(map[], d);
    ScalarMergeReconstructs(map[] + Flatten(d), d);
    SameFiguresSameContribution(Reconstruct(h), d, s);
  }

  /**
   Write the document, crash, be redelivered, finish: the entry is acknowledged under its marker and
   the document is stored, yet nothing of it ever reaches the rollups. True of every scalar row.
   */
  lemma CrashLosesTheRow(d: Doc) returns (stream: Stream, t: Trace, first: State, last: State)
    requires ScalarDoc(d) && Enriched(d) && Stamped(d)
    ensures StreamOk(stream) && forall key :: ScalarRowsAt(stream, key, true)
    ensures Traces(stream, t, 0, first, last) && Init(first) && Quiescent(last)
    ensures forall e | e in stream :: e in last.acked && Grouped(stream, e) && MarkerOf(stream, e) in last.markers
    ensures forall s :: Get(last.store, s) == 0.0
    ensures forall s :: SumMap(WorthAt(s), last.docs) == Contribution(d, s)
  {
    var e := EntryId("in", "1-0");
    var job := Job(e, "a", d);
    stream := map[e := Row("a", d)];
    first := State(map[], map[], map[], {}, {}, [], [Idle]);
    t := WriteDocument(stream, Trace([first], []), first, first, job);
    var stored := WriteState(first, job);
    var crashed := Moved(stored, 0, Idle);
    ExtendTraces(stream, t, 0, first, stored, Crash(0), crashed);
    t := WriteDocument(stream, Extend(t, Crash(0), crashed), first, crashed, job);
    var replayed := WriteState(crashed, job);
    forall s
      ensures Get(replayed.store, s) == Get(replayed.store, s) + Sent(map[] + Flatten(d), d, s)
    {
      ReplaySendsNothing(d, s);
    }
    t, last := FinishEntry(stream, t, first, replayed, job, map[] + Flatten(d), replayed.store);
    assert last.docs == map["a" := (map[] + Flatten(d)) + Flatten(d)];
    forall s ensures SumMap(WorthAt(s), last.docs) == Contribution(d, s) { WrittenTwiceWorth("a", d, s); }
  }
}
