/** Which streams keep the protocol's promises in every run: exact conditions on the entries. */
module Exactness {
  import opened Json
  import opened Sums
  import opened Docs
  import opened Keys
  import opened Rollup
  import opened HashForm
  import opened RoundTrip
  import opened Deltas
  import opened Ingest
  import opened Reconcile
  import opened Runs

  function JobOf(stream: Stream, e: EntryId): Job
    requires e in stream && stream[e].Row?
  {
    Job(e, stream[e].id, stream[e].doc)
  }

  lemma FreshTrace(stream: Stream) returns (t: Trace)
    ensures Traces(stream, t, 0, FRESH, FRESH) && Init(FRESH)
  {
    t := Trace([FRESH], []);
  }

  // ------------------------------------------------------------ exactly one commit

  ghost predicate DistinctMarkers(stream: Stream) {
    forall e, f | Grouped(stream, e) && Grouped(stream, f) && e != f :: MarkerOf(stream, e) != MarkerOf(stream, f)
  }

  /** In every run, what is acknowledged was committed, once. */
  ghost predicate CommitsExactlyOnce(stream: Stream) {
    forall st, e | Reachable(stream, st) && e in st.acked && Grouped(stream, e) :: multiset(st.applied)[e] == 1
  }

  /**
   Two rows under one marker, say of two shard streams with one stream id: the second is acknowledged
   with its document stored, and its difference is never sent.
   */
  lemma SharedMarkerDropsARow(stream: Stream, e: EntryId, f: EntryId) returns (t: Trace, last: State)
    requires Grouped(stream, e) && Grouped(stream, f) && e != f && MarkerOf(stream, e) == MarkerOf(stream, f)
    ensures Traces(stream, t, 0, FRESH, last) && Quiescent(last)
    ensures last.acked == {e, f} && last.applied == [e] && stream[f].id in last.docs
    ensures Applied(FRESH.store, last.store, map[], stream[e].doc)
  {
    var middle;
    t := FreshTrace(stream);
    t, middle := WholeEntry(stream, t, FRESH, FRESH, JobOf(stream, e));
    t, last := WholeEntry(stream, t, FRESH, middle, JobOf(stream, f));
  }

  /** Every acknowledged row is committed exactly once, in every run, iff no two rows share a marker. */
  lemma CommitsExactlyOnceExactly(stream: Stream)
    requires StreamOk(stream)
    ensures CommitsExactlyOnce(stream) <==> DistinctMarkers(stream)
  {
    if DistinctMarkers(stream) {
      forall st, e | Reachable(stream, st) && e in st.acked && Grouped(stream, e) ensures multiset(st.applied)[e] == 1 {
        var states, steps :| Reaches(stream, states, steps, st);
        CommitsOnce(stream, states, steps, |steps|, e);
        var f :| f in st.applied && Grouped(stream, f) && MarkerOf(stream, f) == MarkerOf(stream, e);
        assert f == e;
      }
    } else {
      var e, f :| Grouped(stream, e) && Grouped(stream, f) && e != f && MarkerOf(stream, e) == MarkerOf(stream, f);
      var t, last := SharedMarkerDropsARow(stream, e, f);
      assert multiset(last.applied)[f] == 0;
      assert Reaches(stream, t.states, t.steps, last);
    }
  }

  // ------------------------------------------------------------ counts within documents

  /** A row whose first ingestion counts: it has its base figures. */
  predicate Figured(d: Doc) { if d.sensType == "Curvature" then d.cvrUp.Some? && d.cvrDown.Some? else d.value.Some? }

  /** A present attribute, even an empty one, other than the stored text. */
  predicate Replaces(attribute: Option<string>, stored: string) { attribute.Some? && attribute.value != stored }

  /** HSET of f after e changes the class, bucket or type e stored; absent attributes change nothing. */
  predicate Overrides(f: Doc, e: Doc) {
    || Replaces(f.classTag, e.riskClass)
    || Replaces(f.bucketTag, e.bucket)
    || Replaces(f.typeTag, e.sensType)
  }

  predicate Counts(stream: Stream, e: EntryId) { Grouped(stream, e) && Figured(stream[e].doc) }

  predicate SameId(stream: Stream, e: EntryId, f: EntryId) {
    e in stream && f in stream && stream[e].Row? && stream[f].Row? && stream[e].id == stream[f].id
  }

  /** No row takes an id out of a group in which a row of that id counts. */
  ghost predicate NoneOverridden(stream: Stream) {
    forall e, f | SameId(stream, e, f) && Counts(stream, e) :: !Overrides(stream[f].doc, stream[e].doc)
  }

  /** The row counts at the key. */
  predicate CountsAt(stream: Stream, e: EntryId, key: string) {
    e in stream && stream[e].Row? && Contribution(stream[e].doc, Slot(key, Count)) > 0.0
  }

  /** The key is one a reader of the row's group looks at. */
  predicate ReadAt(stream: Stream, f: EntryId, key: string) {
    f in stream && stream[f].Row? && InGroup(stream[f].doc, key)
  }

  /** No row counts at a key of another row's group. */
  ghost predicate NoneShared(stream: Stream) {
    forall e, f, key | CountsAt(stream, e, key) && ReadAt(stream, f, key) ::
      GroupOf(stream[e].doc) == GroupOf(stream[f].doc)
  }

  /** The stored documents of a class, bucket and type. */
  function GroupIds(docs: map<Id, Hash>, g: Group): set<Id> { set id | id in docs && GroupOf(Header(docs[id])) == g }

  /** At every key of every group that occurs, in every run. */
  ghost predicate CountsBounded(stream: Stream) {
    forall st, f, key | Reachable(stream, st) && ReadAt(stream, f, key) ::
      Get(st.store, Slot(key, Count)) <= |GroupIds(st.docs, GroupOf(stream[f].doc))| as real
  }

  /** Some row of the id counts in the group. */
  ghost predicate Anchored(stream: Stream, id: Id, g: Group) {
    exists e :: Counts(stream, e) && stream[e].id == id && GroupOf(stream[e].doc) == g
  }

  ghost function AnchoredIds(stream: Stream, docs: map<Id, Hash>, g: Group): set<Id> {
    set id | id in docs && Anchored(stream, id, g) && GroupOf(Header(docs[id])) == g
  }

  ghost function Unanchored(stream: Stream, st: State, key: string, g: Group): real {
    |AnchoredIds(stream, st.docs, g)| as real - Get(st.store, Slot(key, Count))
    - SumBy(HeldAt(Slot(key, Count)), st.pcs)
  }

  /** Only rows of the group count at the key. */
  ghost predicate OwnedBy(stream: Stream, key: string, g: Group) {
    forall e | CountsAt(stream, e, key) :: GroupOf(stream[e].doc) == g
  }

  function Merged(attribute: Option<string>, stored: string): string {
    if attribute.Some? then attribute.value else stored
  }

  lemma MergedAttributes(h: Hash, d: Doc)
    ensures var a, b := Header(h + Flatten(d)), Header(h);
            && a.riskClass == Merged(d.classTag, b.riskClass)
            && a.bucket == Merged(d.bucketTag, b.bucket)
            && a.sensType == Merged(d.typeTag, b.sensType)
  {
    NumberFieldNames(d);
    TagNames("risk_class");
    TagNames("bucket");
    TagNames("sensitivity_type");
  }

  /** A counting write is a first write, of a row that counts at the key. */
  lemma CountingWrite(h: Hash, d: Doc, key: string)
    requires Enriched(d)
    ensures var n := Sent(h, d, Slot(key, Count));
            n == 0.0 || (n == 1.0 && h == map[] && HasGroup(d) && Figured(d) && Contribution(d, Slot(key, Count)) > 0.0)
  {
    if h == map[] { FirstIngestSendsAll(d, Slot(key, Count)); }
  }

  lemma SentCount(h: Hash, d: Doc, key: string)
    ensures Sent(h, d, Slot(key, Count)) >= 0.0
  {
  }

  lemma HeldCount(pcs: seq<Pc>, key: string)
    ensures SumBy(HeldAt(Slot(key, Count)), pcs) >= 0.0
  {
    forall pc: Pc ensures Held(pc, Slot(key, Count)) >= 0.0 {
      if pc.Stored? || pc.Marking? { SentCount(pc.snap, pc.job.doc, key); }
    }
    SumByNonNegative(HeldAt(Slot(key, Count)), pcs);
  }

  lemma LostCount(st: State, step: Step, key: string)
    ensures Lost(st, step, Slot(key, Count)) >= 0.0
  {
    if (step.Crash? || step.Exec2? || step.Abort2?) && step.c < |st.pcs| {
      var pc := st.pcs[step.c];
      if pc.Stored? || pc.Marking? { SentCount(pc.snap, pc.job.doc, key); }
    }
  }

  lemma OtherStepCounts(stream: Stream, st: State, step: Step, st': State, key: string, g: Group)
    requires Inv(stream, st) && Next(stream, st, step, st') && !step.Exec1?
    ensures Unanchored(stream, st', key, g) >= Unanchored(stream, st, key, g)
  {
    assert st'.docs == st.docs;
    GapStep(stream, st, step, st', Slot(key, Count));
    LostCount(st, step, key);
  }

  lemma AnchorsGrow(stream: Stream, docs: map<Id, Hash>, e: EntryId, g: Group)
    requires NoneOverridden(stream) && e in stream && stream[e].Row?
    ensures var id, d := stream[e].id, stream[e].doc;
            AnchoredIds(stream, docs, g) <= AnchoredIds(stream, docs[id := HashAt(docs, id) + Flatten(d)], g)
  {
    var id, d := stream[e].id, stream[e].doc;
    MergedAttributes(HashAt(docs, id), d);
    if id in AnchoredIds(stream, docs, g) {
      var a :| Counts(stream, a) && stream[a].id == id && GroupOf(stream[a].doc) == g;
      assert SameId(stream, a, e);
    }
  }

  lemma CountingWriteAnchors(stream: Stream, docs: map<Id, Hash>, e: EntryId, g: Group)
    requires Counts(stream, e) && stream[e].id !in docs && GroupOf(stream[e].doc) == g
    ensures stream[e].id !in AnchoredIds(stream, docs, g)
    ensures stream[e].id in AnchoredIds(stream, docs[stream[e].id := map[] + Flatten(stream[e].doc)], g)
  {
    MergedAttributes(map[], stream[e].doc);
  }

  lemma Exec1Anchors(stream: Stream, st: State, c: nat, st': State, key: string, g: Group)
    requires Inv(stream, st) && NoneOverridden(stream) && OwnedBy(stream, key, g) && Exec1Next(st, c, st')
    ensures Unanchored(stream, st', key, g) >= Unanchored(stream, st, key, g)
  {
    var p := st.pcs[c];
    var job, h := p.job, HashAt(st.docs, p.job.id);
    assert PcOk(stream, st, p) && JobOk(stream, job);
    assert stream[job.entry].Row?;
    GapMoved(st, c, st'.pcs[c], Slot(key, Count));
    CountingWrite(h, job.doc, key);
    AnchorsGrow(stream, st.docs, job.entry, g);
    var before, after := AnchoredIds(stream, st.docs, g), AnchoredIds(stream, st'.docs, g);
    Grown(before, after);
    if Sent(h, job.doc, Slot(key, Count)) == 1.0 {
      assert CountsAt(stream, job.entry, key);
      CountingWriteAnchors(stream, st.docs, job.entry, g);
      OneMore(before, after, job.id);
    }
  }

  lemma Grown<T>(a: set<T>, b: set<T>)
    requires a <= b
    ensures |a| <= |b|
  {
    assert b == a + (b - a);
  }

  lemma OneMore<T>(a: set<T>, b: set<T>, x: T)
    requires a <= b && x in b && x !in a
    ensures |a| + 1 <= |b|
  {
    Grown(a + {x}, b);
  }

  lemma AnchorStep(stream: Stream, st: State, step: Step, st': State, key: string, g: Group)
    requires Inv(stream, st) && NoneOverridden(stream) && OwnedBy(stream, key, g) && Next(stream, st, step, st')
    ensures Unanchored(stream, st', key, g) >= Unanchored(stream, st, key, g)
  {
    if step.Exec1? {
      Exec1Anchors(stream, st, step.c, st', key, g);
    } else {
      OtherStepCounts(stream, st, step, st', key, g);
    }
  }

  lemma {:induction false} AnchorRun(stream: Stream, states: seq<State>, steps: seq<Step>, n: nat, key: string,
      g: Group)
    requires StreamOk(stream) && NoneOverridden(stream) && OwnedBy(stream, key, g)
    requires Run(stream, states, steps) && Init(states[0]) && n <= |steps|
    ensures Unanchored(stream, states[n], key, g) >= 0.0
  {
    if n == 0 {
      IdleHoldsNothing(states[0].pcs, Slot(key, Count));
    } else {
      AnchorRun(stream, states, steps, n - 1, key, g);
      InvRun(stream, states, steps, n - 1);
      AnchorStep(stream, states[n - 1], steps[n - 1], states[n], key, g);
    }
  }

  /** Where no counted row's group is overridden, a key at which one group alone counts never exceeds its documents. */
  lemma CountsNeverExceedDocuments(stream: Stream, states: seq<State>, steps: seq<Step>, n: nat, key: string, g: Group)
    requires StreamOk(stream) && NoneOverridden(stream) && OwnedBy(stream, key, g)
    requires Run(stream, states, steps) && Init(states[0]) && n <= |steps|
    ensures Get(states[n].store, Slot(key, Count)) <= |GroupIds(states[n].docs, g)| as real
  {
    AnchorRun(stream, states, steps, n, key, g);
    HeldCount(states[n].pcs, key);
    Grown(AnchoredIds(stream, states[n].docs, g), GroupIds(states[n].docs, g));
  }

  lemma TakenElsewhere(id: Id, d: Doc, e: Doc)
    requires HasGroup(d) && Overrides(e, d)
    ensures GroupIds(map[id := map[] + Flatten(d) + Flatten(e)], GroupOf(d)) == {}
  {
    MergedAttributes(map[], d);
    MergedAttributes(map[] + Flatten(d), e);
  }

  /** A counting row, then a row that takes its id to another group: one counted, none stored there. */
  lemma OverridingOverstatesACount(stream: Stream, e: EntryId, f: EntryId) returns (t: Trace, last: State)
    requires StreamOk(stream) && SameId(stream, e, f) && Counts(stream, e) && Overrides(stream[f].doc, stream[e].doc)
    ensures Traces(stream, t, 0, FRESH, last)
    ensures var g := GroupOf(stream[e].doc);
            Get(last.store, Slot(BaseKey(g), Count)) == 1.0 && GroupIds(last.docs, g) == {}
  {
    var d := stream[e].doc;
    var s := Slot(BaseKey(GroupOf(d)), Count);
    var middle;
    t := FreshTrace(stream);
    t, middle := WholeEntry(stream, t, FRESH, FRESH, JobOf(stream, e));
    FirstIngestSendsAll(d, s);
    assert Get(middle.store, s) == 1.0;
    t := WriteDocument(stream, t, FRESH, middle, JobOf(stream, f));
    last := WriteState(middle, JobOf(stream, f));
    assert last.docs == map[stream[e].id := map[] + Flatten(d) + Flatten(stream[f].doc)];
    TakenElsewhere(stream[e].id, d, stream[f].doc);
  }

  /** A row that counts at a key of another group: one counted there, none stored. */
  lemma SharingOverstatesACount(stream: Stream, e: EntryId, f: EntryId, key: string) returns (t: Trace, last: State)
    requires StreamOk(stream) && CountsAt(stream, e, key) && ReadAt(stream, f, key)
             && GroupOf(stream[e].doc) != GroupOf(stream[f].doc)
    ensures Traces(stream, t, 0, FRESH, last)
    ensures Get(last.store, Slot(key, Count)) == 1.0 && GroupIds(last.docs, GroupOf(stream[f].doc)) == {}
  {
    var d := stream[e].doc;
    t := FreshTrace(stream);
    t, last := WholeEntry(stream, t, FRESH, FRESH, JobOf(stream, e));
    FirstIngestSendsAll(d, Slot(key, Count));
    MergedAttributes(map[], d);
    assert last.docs == map[stream[e].id := map[] + Flatten(d)];
  }

  lemma BoundedIfNoneOverriddenOrShared(stream: Stream)
    requires StreamOk(stream) && NoneOverridden(stream) && NoneShared(stream)
    ensures CountsBounded(stream)
  {
    forall st, f, key | Reachable(stream, st) && ReadAt(stream, f, key)
      ensures Get(st.store, Slot(key, Count)) <= |GroupIds(st.docs, GroupOf(stream[f].doc))| as real
    {
      var states, steps :| Reaches(stream, states, steps, st);
      CountsNeverExceedDocuments(stream, states, steps, |steps|, key, GroupOf(stream[f].doc));
    }
  }

  lemma OverriddenUnbounded(stream: Stream, e: EntryId, f: EntryId)
    requires StreamOk(stream) && SameId(stream, e, f) && Counts(stream, e) && Overrides(stream[f].doc, stream[e].doc)
    ensures !CountsBounded(stream)
  {
    var t, last := OverridingOverstatesACount(stream, e, f);
    assert Reaches(stream, t.states, t.steps, last);
    assert ReadAt(stream, e, BaseKey(GroupOf(stream[e].doc)));
  }

  lemma SharedUnbounded(stream: Stream, e: EntryId, f: EntryId, key: string)
    requires StreamOk(stream) && CountsAt(stream, e, key) && ReadAt(stream, f, key)
             && GroupOf(stream[e].doc) != GroupOf(stream[f].doc)
    ensures !CountsBounded(stream)
  {
    var t, last := SharingOverstatesACount(stream, e, f, key);
    assert Reaches(stream, t.states, t.steps, last);
  }

  /**
   In every run no count exceeds the stored documents of its group iff no counted row's group is overridden under its
   id, by an empty attribute or any other, and no row counts at a key of another row's group.
   */
  lemma CountsBoundedExactly(stream: Stream)
    requires StreamOk(stream)
    ensures CountsBounded(stream) <==> NoneOverridden(stream) && NoneShared(stream)
  {
    if NoneOverridden(stream) && NoneShared(stream) {
      BoundedIfNoneOverriddenOrShared(stream);
    } else if !NoneOverridden(stream) {
      var e, f :| SameId(stream, e, f) && Counts(stream, e) && Overrides(stream[f].doc, stream[e].doc);
      OverriddenUnbounded(stream, e, f);
    } else {
      var e, f, key :| CountsAt(stream, e, key) && ReadAt(stream, f, key)
                       && GroupOf(stream[e].doc) != GroupOf(stream[f].doc);
      SharedUnbounded(stream, e, f, key);
    }
  }

  /** Without a colon in a class, bucket or type no key is shared, and overriding alone decides. */
  lemma ColonFreeCountsBoundedExactly(stream: Stream)
    requires StreamOk(stream) && forall e | Grouped(stream, e) :: ColonFree(GroupOf(stream[e].doc))
    ensures CountsBounded(stream) <==> NoneOverridden(stream)
  {
    CountsBoundedExactly(stream);
    forall e, f, key | CountsAt(stream, e, key) && ReadAt(stream, f, key)
      ensures GroupOf(stream[e].doc) == GroupOf(stream[f].doc)
    {
      var d, d' := stream[e].doc, stream[f].doc;
      assert InGroup(d, key) && Grouped(stream, e) && Grouped(stream, f);
      PlacedKey(d, key);
      PlacedKey(d', key);
      ColonFreeKeys(GroupOf(d), TenorAt(d, key), GroupOf(d'), TenorAt(d', key));
    }
  }

  /** Two ways to overstate a count: a bucket sent again as empty text, and names that make one key of two groups. */
  lemma EmptyBucketOrColonOverstates(stream: Stream, e: EntryId, f: EntryId)
    requires StreamOk(stream) && Counts(stream, e) && f in stream && stream[f].Row?
    requires || (stream[f].id == stream[e].id && stream[f].doc.bucketTag == Some(""))
             || (GroupOf(stream[e].doc) == Group("FX:1", "2", "Delta")
                 && GroupOf(stream[f].doc) == Group("FX", "1:2", "Delta"))
    ensures !CountsBounded(stream)
  {
    if stream[f].id == stream[e].id && stream[f].doc.bucketTag == Some("") {
      OverriddenUnbounded(stream, e, f);
    } else {
      KeysCollide();
      SharedUnbounded(stream, e, f, BaseKey(GroupOf(stream[e].doc)));
    }
  }
}
