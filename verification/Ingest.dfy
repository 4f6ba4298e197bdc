/**
 The atomic ingest path as a protocol. Several consumers share one Redis; each takes a
 stream entry through three phases: the document under WATCH, the rollup difference with
 its marker under WATCH, and the tail that acknowledges. Any consumer may stop at any
 point and any entry that is not acknowledged may be delivered again, to any consumer.
 */
module Ingest {
  import opened Json
  import opened Listing
  import opened Docs
  import opened Rollup
  import opened HashForm
  import opened RoundTrip
  import opened Deltas
  import opened Tokens

  /** Stream ids are unique within a stream; the shard streams of one ingest share everything else. */
  datatype EntryId = EntryId(stream: string, id: string)

  type Id = string

  // ------------------------------------------------------------ the stream

  /** A stream message as the consumer sees it; "" stands for an absent id. */
  datatype Wire = Wire(hashTag: Option<string>, id: Id, riskClass: string, bucket: string, raw: RawDoc)

  datatype Message = Malformed | Row(id: Id, doc: Doc)

  /** The entries of all shard streams. */
  type Stream = map<EntryId, Message>

  function Decode(w: Wire, schema: Schema): (m: Message)
    ensures m.Row? ==> m.id != "" && exists raw :: m.doc == Enrich(raw, schema)
  {
    var tag := if w.hashTag.Some? then w.hashTag.value
        else if w.riskClass != "" && w.bucket != "" then w.riskClass + ":" + w.bucket else "";
    if tag == "" || w.id == "" then Malformed else Row(w.id, Enrich(w.raw, schema))
  }

  /** A message is malformed without an id, with an empty tag, or without a tag and without class or bucket. */
  lemma DecodedExactly(w: Wire, schema: Schema)
    ensures Decode(w, schema).Malformed?
            <==> w.id == "" || w.hashTag == Some("") || (w.hashTag.None? && (w.riskClass == "" || w.bucket == ""))
    ensures Decode(w, schema).Row? ==> Decode(w, schema) == Row(w.id, Enrich(w.raw, schema))
  {
  }

  // ------------------------------------------------------------ states

  datatype Job = Job(entry: EntryId, id: Id, doc: Doc)

  /** The idempotency key: class, bucket and stream id, but not the stream. */
  function MarkerKey(d: Doc, e: EntryId): string { Joined("processed", Joined(d.riskClass, Joined(d.bucket, e.id))) }

  function JobMarker(job: Job): string { MarkerKey(job.doc, job.entry) }

  /** An entry whose row has class, bucket and type. */
  predicate Grouped(stream: Stream, e: EntryId) { e in stream && stream[e].Row? && HasGroup(stream[e].doc) }

  function MarkerOf(stream: Stream, e: EntryId): string
    requires Grouped(stream, e)
  {
    MarkerKey(stream[e].doc, e)
  }

  /** Where a consumer stands with the entry in hand. */
  datatype Pc =
    | Idle
    | Start(job: Job, tries: nat)
    | Watching(job: Job, tries: nat, snap: Hash, version: nat)
    | Stored(job: Job, tries: nat, snap: Hash)
    | Marking(job: Job, tries: nat, snap: Hash, seen: bool)
    | Tail(job: Job)

  datatype State = State(
    docs: map<Id, Hash>, versions: map<Id, nat>, store: Store, markers: set<string>, acked: set<EntryId>,
    applied: seq<EntryId>, pcs: seq<Pc>)

  function HashAt(docs: map<Id, Hash>, id: Id): Hash { if id in docs then docs[id] else map[] }

  function VersionAt(versions: map<Id, nat>, id: Id): nat { if id in versions then versions[id] else 0 }

  ghost predicate Init(st: State) {
    && st.docs == map[] && st.versions == map[] && st.store == map[] && st.markers == {} && st.acked == {}
    && st.applied == []
    && forall c | 0 <= c < |st.pcs| :: st.pcs[c] == Idle
  }

  const MAX_WATCH_RETRIES := 8

  // ------------------------------------------------------------ steps

  datatype Step =
    | Take(c: nat, entry: EntryId)
    | Watch1(c: nat) | Exec1(c: nat) | Abort1(c: nat)
    | Watch2(c: nat) | Exec2(c: nat) | Abort2(c: nat)
    | Ack(c: nat)
    | Crash(c: nat)

  function Moved(st: State, c: nat, pc: Pc): State
    requires c < |st.pcs|
  {
    st.(pcs := st.pcs[c := pc])
  }

  /** XREADGROUP hands out an entry that is not acknowledged; a malformed one is acknowledged on the spot. */
  ghost predicate TakeNext(stream: Stream, st: State, c: nat, e: EntryId, st': State) {
    && c < |st.pcs| && st.pcs[c].Idle? && e in stream && e !in st.acked
    && match stream[e]
       case Malformed => st' == st.(acked := st.acked + {e})
       case Row(id, d) => st' == Moved(st, c, Start(Job(e, id, d), 0))
  }

  ghost predicate Watch1Next(st: State, c: nat, st': State) {
    && c < |st.pcs| && st.pcs[c].Start?
    && var p := st.pcs[c];
       st' == Moved(st, c, Watching(p.job, p.tries, HashAt(st.docs, p.job.id), VersionAt(st.versions, p.job.id)))
  }

  /** The HSET commits only if nobody wrote the key since it was watched. */
  ghost predicate Exec1Next(st: State, c: nat, st': State) {
    && c < |st.pcs| && st.pcs[c].Watching?
    && var p := st.pcs[c];
       var id := p.job.id;
       && p.version == VersionAt(st.versions, id)
       && st' == Moved(st, c, if HasGroup(p.job.doc) then Stored(p.job, 0, p.snap) else Tail(p.job))
                 .(docs := st.docs[id := HashAt(st.docs, id) + Flatten(p.job.doc)],
                     versions := st.versions[id := p.version + 1])
  }

  /** After the last retry the entry is left pending. */
  ghost predicate Abort1Next(st: State, c: nat, st': State) {
    && c < |st.pcs| && st.pcs[c].Watching?
    && var p := st.pcs[c];
       st' == Moved(st, c, if p.tries < MAX_WATCH_RETRIES then Start(p.job, p.tries + 1) else Idle)
  }

  ghost predicate Watch2Next(st: State, c: nat, st': State) {
    && c < |st.pcs| && st.pcs[c].Stored?
    && var p := st.pcs[c];
       st' == Moved(st, c, Marking(p.job, p.tries, p.snap, JobMarker(p.job) in st.markers))
  }

  /** `store'` is `store` with the difference of the job applied. */
  ghost predicate Applied(store: Store, store': Store, snap: Hash, d: Doc) {
    forall s :: Get(store', s) == Get(store, s) + Sent(snap, d, s)
  }

  /** The difference and the marker commit together, or, under an existing marker, nothing does. */
  ghost predicate Exec2Next(st: State, c: nat, st': State) {
    && c < |st.pcs| && st.pcs[c].Marking?
    && var p := st.pcs[c];
       var marker := JobMarker(p.job);
       && p.seen == (marker in st.markers)
       && (if p.seen then st' == Moved(st, c, Tail(p.job))
           else && Applied(st.store, st'.store, p.snap, p.job.doc)
                && st' == Moved(st, c, Tail(p.job)).(store := st'.store, markers := st.markers + {marker},
                                                      applied := st.applied + [p.job.entry]))
  }

  ghost predicate Abort2Next(st: State, c: nat, st': State) {
    && c < |st.pcs| && st.pcs[c].Marking?
    && var p := st.pcs[c];
       st' == Moved(st, c, if p.tries < MAX_WATCH_RETRIES then Stored(p.job, p.tries + 1, p.snap) else Idle)
  }

  ghost predicate AckNext(st: State, c: nat, st': State) {
    && c < |st.pcs| && st.pcs[c].Tail?
    && st' == Moved(st, c, Idle).(acked := st.acked + {st.pcs[c].job.entry})
  }

  ghost predicate CrashNext(st: State, c: nat, st': State) { c < |st.pcs| && st' == Moved(st, c, Idle) }

  ghost predicate Next(stream: Stream, st: State, step: Step, st': State) {
    match step
    case Take(c, e) => TakeNext(stream, st, c, e, st')
    case Watch1(c) => Watch1Next(st, c, st')
    case Exec1(c) => Exec1Next(st, c, st')
    case Abort1(c) => Abort1Next(st, c, st')
    case Watch2(c) => Watch2Next(st, c, st')
    case Exec2(c) => Exec2Next(st, c, st')
    case Abort2(c) => Abort2Next(st, c, st')
    case Ack(c) => AckNext(st, c, st')
    case Crash(c) => CrashNext(st, c, st')
  }

  ghost predicate Run(stream: Stream, states: seq<State>, steps: seq<Step>) {
    && |states| == |steps| + 1
    && forall i | 0 <= i < |steps| :: Next(stream, states[i], steps[i], states[i + 1])
  }

  ghost predicate Reaches(stream: Stream, states: seq<State>, steps: seq<Step>, st: State) {
    Run(stream, states, steps) && Init(states[0]) && states[|steps|] == st
  }

  ghost predicate Reachable(stream: Stream, st: State) { exists states, steps :: Reaches(stream, states, steps, st) }

  // ------------------------------------------------------------ what every reachable state satisfies

  /** Documents as enrichment makes them; the calibration stamp means a stored HASH is never empty. */
  ghost predicate StreamOk(stream: Stream) {
    forall e | e in stream && stream[e].Row? :: Enriched(stream[e].doc) && Stamped(stream[e].doc)
  }

  predicate Stamped(d: Doc) { "_calibration" in d.tags && d.tags["_calibration"] != "" }

  lemma DecodedOk(w: Wire, schema: Schema)
    ensures var m := Decode(w, schema);
            m.Row? ==> Enriched(m.doc) && Stamped(m.doc)
  {
    EnrichShape(w.raw, schema);
    EnrichKeepsTags(w.raw, schema);
  }

  lemma EnrichKeepsTags(raw: RawDoc, schema: Schema)
    ensures Enrich(raw, schema).tags == Plain(raw).tags
  {
  }

  ghost predicate JobOk(stream: Stream, job: Job) { job.entry in stream && stream[job.entry] == Row(job.id, job.doc) }

  /** The entry's document exists and, when it has a group, its difference is in under its marker. */
  ghost predicate Finished(stream: Stream, st: State, e: EntryId) {
    e in stream
    && (stream[e].Row? ==> stream[e].id in st.docs && (HasGroup(stream[e].doc) ==> MarkerOf(stream, e) in st.markers))
  }

  /** A consumer past a phase relies on what that phase left in Redis. */
  ghost predicate PcOk(stream: Stream, st: State, pc: Pc) {
    match pc
    case Idle => true
    case Start(job, _) => JobOk(stream, job)
    case Watching(job, _, snap, version) =>
      && JobOk(stream, job) && version <= VersionAt(st.versions, job.id)
      && (version == VersionAt(st.versions, job.id) ==> snap == HashAt(st.docs, job.id))
    case Stored(job, _, _) => JobOk(stream, job) && HasGroup(job.doc) && job.id in st.docs
    case Marking(job, _, _, seen) =>
      JobOk(stream, job) && HasGroup(job.doc) && job.id in st.docs && (seen ==> JobMarker(job) in st.markers)
    case Tail(job) => JobOk(stream, job) && Finished(stream, st, job.entry)
  }

  ghost predicate PcsOk(stream: Stream, st: State) { forall c | 0 <= c < |st.pcs| :: PcOk(stream, st, st.pcs[c]) }

  ghost predicate NoneEmpty(docs: map<Id, Hash>) { forall id | id in docs :: docs[id] != map[] }

  ghost predicate AckedOk(stream: Stream, st: State) { forall e | e in st.acked :: Finished(stream, st, e) }

  /** The log of committed differences: each marker was set by exactly one of them. */
  ghost predicate MarkersOk(stream: Stream, markers: set<string>, applied: seq<EntryId>) {
    && (forall i | 0 <= i < |applied| :: Grouped(stream, applied[i]) && MarkerOf(stream, applied[i]) in markers)
    && (forall i, j | 0 <= i < j < |applied| :: MarkerOf(stream, applied[i]) != MarkerOf(stream, applied[j]))
    && (forall m | m in markers :: exists i :: 0 <= i < |applied| && MarkerOf(stream, applied[i]) == m)
  }

  ghost predicate Inv(stream: Stream, st: State) {
    StreamOk(stream) && PcsOk(stream, st) && NoneEmpty(st.docs) && AckedOk(stream, st)
    && MarkersOk(stream, st.markers, st.applied)
  }

  /** Redis only grows, and a key whose version did not move did not change. */
  ghost predicate Grows(st: State, st': State) {
    && (forall id | id in st.docs :: id in st'.docs)
    && st.markers <= st'.markers
    && (forall id :: VersionAt(st.versions, id) <= VersionAt(st'.versions, id))
    && (forall id | VersionAt(st.versions, id) == VersionAt(st'.versions, id) ::
       HashAt(st.docs, id) == HashAt(st'.docs, id))
  }

  /** One consumer moves, Redis grows: the other consumers' assumptions survive. */
  lemma PcsMove(stream: Stream, st: State, st': State, c: nat, pc: Pc)
    requires c < |st.pcs| && st'.pcs == st.pcs[c := pc] && Grows(st, st')
    requires PcsOk(stream, st) && PcOk(stream, st', pc)
    ensures PcsOk(stream, st')
  {
    forall k | 0 <= k < |st'.pcs| ensures PcOk(stream, st', st'.pcs[k]) {
      if k != c { assert PcOk(stream, st, st.pcs[k]); }
    }
  }

  lemma AckedGrows(stream: Stream, st: State, st': State, acked: set<EntryId>)
    requires AckedOk(stream, st) && Grows(st, st') && st'.acked == st.acked + acked
    requires forall e | e in acked :: Finished(stream, st', e)
    ensures AckedOk(stream, st')
  {
    forall e | e in st'.acked ensures Finished(stream, st', e) {
      if e in st.acked { assert Finished(stream, st, e); }
    }
  }

  /** A step that leaves documents and markers alone. */
  lemma QuietStep(stream: Stream, st: State, st': State, c: nat, pc: Pc, acked: set<EntryId>)
    requires Inv(stream, st) && c < |st.pcs|
    requires st' == st.(pcs := st.pcs[c := pc], acked := st.acked + acked)
    requires PcOk(stream, st', pc) && forall e | e in acked :: Finished(stream, st', e)
    ensures Inv(stream, st')
  {
    PcsMove(stream, st, st', c, pc);
    AckedGrows(stream, st, st', acked);
  }

  lemma StampedMerge(h: Hash, d: Doc)
    requires Stamped(d)
    ensures h + Flatten(d) != map[]
  {
    assert "_calibration" in TagFields(d);
    assert "_calibration" in h + Flatten(d);
  }

  lemma Exec1Grows(st: State, c: nat, st': State)
    requires Exec1Next(st, c, st')
    ensures Grows(st, st')
  {
  }

  lemma Exec1Inv(stream: Stream, st: State, c: nat, st': State)
    requires Inv(stream, st) && Exec1Next(st, c, st')
    ensures Inv(stream, st')
  {
    var job := st.pcs[c].job;
    assert PcOk(stream, st, st.pcs[c]);
    assert stream[job.entry].Row?;
    StampedMerge(HashAt(st.docs, job.id), job.doc);
    Exec1Grows(st, c, st');
    PcsMove(stream, st, st', c, if HasGroup(job.doc) then Stored(job, 0, st.pcs[c].snap) else Tail(job));
    AckedGrows(stream, st, st', {});
  }

  lemma CommitLogged(stream: Stream, markers: set<string>, applied: seq<EntryId>, e: EntryId)
    requires MarkersOk(stream, markers, applied) && Grouped(stream, e)
    ensures MarkerOf(stream, e) !in markers ==> MarkersOk(stream, markers + {MarkerOf(stream, e)}, applied + [e])
  {
    var more, m := applied + [e], MarkerOf(stream, e);
    if m !in markers {
      forall k | k in markers + {m} ensures exists i :: 0 <= i < |more| && MarkerOf(stream, more[i]) == k {
        if k in markers {
          var i :| 0 <= i < |applied| && MarkerOf(stream, applied[i]) == k;
          assert MarkerOf(stream, more[i]) == k;
        } else {
          assert MarkerOf(stream, more[|applied|]) == k;
        }
      }
    }
  }

  lemma Exec2Inv(stream: Stream, st: State, c: nat, st': State)
    requires Inv(stream, st) && Exec2Next(st, c, st')
    ensures Inv(stream, st')
  {
    var p := st.pcs[c];
    assert PcOk(stream, st, p);
    assert Grouped(stream, p.job.entry) && MarkerOf(stream, p.job.entry) == JobMarker(p.job);
    assert JobMarker(p.job) in st'.markers;
    CommitLogged(stream, st.markers, st.applied, p.job.entry);
    assert Grows(st, st');
    PcsMove(stream, st, st', c, Tail(p.job));
    AckedGrows(stream, st, st', {});
  }

  lemma TakeInv(stream: Stream, st: State, c: nat, e: EntryId, st': State)
    requires Inv(stream, st) && TakeNext(stream, st, c, e, st')
    ensures Inv(stream, st')
  {
    match stream[e] {
      case Malformed =>
        assert st.pcs == st.pcs[c := st.pcs[c]];
        QuietStep(stream, st, st', c, st.pcs[c], {e});
      case Row(id, d) => QuietStep(stream, st, st', c, st'.pcs[c], {});
    }
  }

  /** Watches and aborts move the consumer alone. */
  lemma WatchInv(stream: Stream, st: State, step: Step, c: nat, st': State)
    requires step == Watch1(c) || step == Abort1(c) || step == Watch2(c) || step == Abort2(c)
    requires Inv(stream, st) && Next(stream, st, step, st')
    ensures Inv(stream, st')
  {
    assert PcOk(stream, st, st.pcs[c]);
    QuietStep(stream, st, st', c, st'.pcs[c], {});
  }

  lemma InvStep(stream: Stream, st: State, step: Step, st': State)
    requires Inv(stream, st) && Next(stream, st, step, st')
    ensures Inv(stream, st')
  {
    match step {
      case Take(c, e) => TakeInv(stream, st, c, e, st');
      case Watch1(c) => WatchInv(stream, st, step, c, st');
      case Exec1(c) => Exec1Inv(stream, st, c, st');
      case Abort1(c) => WatchInv(stream, st, step, c, st');
      case Watch2(c) => WatchInv(stream, st, step, c, st');
      case Exec2(c) => Exec2Inv(stream, st, c, st');
      case Abort2(c) => WatchInv(stream, st, step, c, st');
      case Ack(c) => assert PcOk(stream, st, st.pcs[c]); QuietStep(stream, st, st', c, Idle, {st.pcs[c].job.entry});
      case Crash(c) => QuietStep(stream, st, st', c, Idle, {});
    }
  }

  lemma {:induction false} InvRun(stream: Stream, states: seq<State>, steps: seq<Step>, n: nat)
    requires StreamOk(stream) && Run(stream, states, steps) && Init(states[0]) && n <= |steps|
    ensures Inv(stream, states[n])
  {
    if n > 0 {
      InvRun(stream, states, steps, n - 1);
      InvStep(stream, states[n - 1], steps[n - 1], states[n]);
    }
  }

  /**
   In every run, over any shard streams, each entry's difference commits at most once; an acknowledged
   row has its document and, if it has a group, its marker, set by exactly one committed entry.
   */
  lemma CommitsOnce(stream: Stream, states: seq<State>, steps: seq<Step>, n: nat, e: EntryId)
    requires StreamOk(stream) && Run(stream, states, steps) && Init(states[0]) && n <= |steps|
    ensures multiset(states[n].applied)[e] <= 1
    ensures e in states[n].acked && e in stream && stream[e].Row? ==> stream[e].id in states[n].docs
    ensures e in states[n].acked && Grouped(stream, e) ==>
      && MarkerOf(stream, e) in states[n].markers
      && exists f :: f in states[n].applied && Grouped(stream, f) && MarkerOf(stream, f) == MarkerOf(stream, e)
  {
    InvRun(stream, states, steps, n);
    var applied := states[n].applied;
    OnceOrNever(applied, e);
    if e in states[n].acked && Grouped(stream, e) {
      assert Finished(stream, states[n], e);
      var i :| 0 <= i < |applied| && MarkerOf(stream, applied[i]) == MarkerOf(stream, e);
      assert applied[i] in applied;
    }
  }

  // ------------------------------------------------------------ markers as text

  /** The parts of a marker, cut at every colon. */
  function MarkerTokens(d: Doc, e: EntryId): seq<string> { Split(d.riskClass) + Split(d.bucket) + Split(e.id) }

  lemma MarkerKeyTokens(d: Doc, e: EntryId)
    ensures Split(MarkerKey(d, e)) == ["processed"] + MarkerTokens(d, e)
  {
    OneTokenIsWhole("processed");
    SplitTwice("processed", Joined(d.riskClass, Joined(d.bucket, e.id)));
    SplitThrice(d.riskClass, d.bucket, e.id);
  }

  /** Two markers agree iff their parts, cut at every colon, do; without colons, iff class, bucket and id do. */
  lemma MarkersAgreeExactly(d: Doc, e: EntryId, d': Doc, e': EntryId)
    ensures MarkerKey(d, e) == MarkerKey(d', e') <==> MarkerTokens(d, e) == MarkerTokens(d', e')
    ensures ':' !in d.riskClass && ':' !in d.bucket && ':' !in d'.riskClass && ':' !in d'.bucket ==>
              (MarkerKey(d, e) == MarkerKey(d', e')
               <==> d.riskClass == d'.riskClass && d.bucket == d'.bucket && e.id == e'.id)
  {
    MarkerKeyTokens(d, e);
    MarkerKeyTokens(d', e');
    SplitInjective(MarkerKey(d, e), MarkerKey(d', e'));
    assert (["processed"] + MarkerTokens(d, e))[1..] == MarkerTokens(d, e);
    assert (["processed"] + MarkerTokens(d', e'))[1..] == MarkerTokens(d', e');
    if MarkerKey(d, e) == MarkerKey(d', e') {
      MarkersCut(d, e, d', e');
    }
  }

  lemma MarkersCut(d: Doc, e: EntryId, d': Doc, e': EntryId)
    requires MarkerKey(d, e) == MarkerKey(d', e')
    ensures ':' !in d.riskClass && ':' !in d.bucket && ':' !in d'.riskClass && ':' !in d'.bucket ==>
              d.riskClass == d'.riskClass && d.bucket == d'.bucket && e.id == e'.id
  {
    if ':' !in d.riskClass && ':' !in d.bucket && ':' !in d'.riskClass && ':' !in d'.bucket {
      CutOnce("processed", Joined(d.riskClass, Joined(d.bucket, e.id)),
          "processed", Joined(d'.riskClass, Joined(d'.bucket, e'.id)));
      CutOnce(d.riskClass, Joined(d.bucket, e.id), d'.riskClass, Joined(d'.bucket, e'.id));
      CutOnce(d.bucket, e.id, d'.bucket, e'.id);
    }
  }
}
