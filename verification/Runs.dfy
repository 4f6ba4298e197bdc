/** Runs of the protocol built step by step, and the two halves of one consumer's undisturbed work. */
module Runs {
  import opened Json
  import opened Docs
  import opened Keys
  import opened Rollup
  import opened HashForm
  import opened Deltas
  import opened Ingest

  /** A run of the protocol from `first` to `last`. */
  datatype Trace = Trace(states: seq<State>, steps: seq<Step>)

  ghost predicate Traces(stream: Stream, t: Trace, c: nat, first: State, last: State) {
    && Run(stream, t.states, t.steps) && t.states[0] == first && t.states[|t.steps|] == last
    && forall i | 0 <= i < |t.steps| :: t.steps[i].c == c
  }

  function Extend(t: Trace, step: Step, st: State): Trace { Trace(t.states + [st], t.steps + [step]) }

  lemma ExtendTraces(stream: Stream, t: Trace, c: nat, first: State, last: State, step: Step, st: State)
    requires Traces(stream, t, c, first, last) && Next(stream, last, step, st) && step.c == c
    ensures Traces(stream, Extend(t, step, st), c, first, st)
  {
    var u := Extend(t, step, st);
    forall i | 0 <= i < |u.steps| ensures Next(stream, u.states[i], u.steps[i], u.states[i + 1]) {
      if i == |t.steps| { assert u.states[i] == last; } else { assert u.states[i + 1] == t.states[i + 1]; }
    }
  }

  // ------------------------------------------------------------ one consumer, undisturbed

  function WatchState(st: State, job: Job): State
    requires |st.pcs| == 1
  {
    Moved(st, 0, Watching(job, 0, HashAt(st.docs, job.id), VersionAt(st.versions, job.id)))
  }

  function WriteState(st: State, job: Job): State
    requires |st.pcs| == 1
  {
    var h, v := HashAt(st.docs, job.id), VersionAt(st.versions, job.id);
    var moved := Moved(st, 0, if HasGroup(job.doc) then Stored(job, 0, h) else Tail(job));
    moved.(docs := st.docs[job.id := h + Flatten(job.doc)], versions := st.versions[job.id := v + 1])
  }

  /** Taking an entry and writing its document, undisturbed. */
  lemma WriteDocument(stream: Stream, t: Trace, first: State, st: State, job: Job) returns (t': Trace)
    requires Traces(stream, t, 0, first, st) && |st.pcs| == 1 && st.pcs[0].Idle? && job.entry !in st.acked
    requires JobOk(stream, job)
    ensures Traces(stream, t', 0, first, WriteState(st, job))
  {
    var taken := Moved(st, 0, Start(job, 0));
    ExtendTraces(stream, t, 0, first, st, Take(0, job.entry), taken);
    t' := Extend(t, Take(0, job.entry), taken);
    ExtendTraces(stream, t', 0, first, taken, Watch1(0), WatchState(taken, job));
    t' := Extend(t', Watch1(0), WatchState(taken, job));
    assert WriteState(st, job) == WriteState(WatchState(taken, job), job);
    ExtendTraces(stream, t', 0, first, WatchState(taken, job), Exec1(0), WriteState(st, job));
    t' := Extend(t', Exec1(0), WriteState(st, job));
  }

  /** The rollup half and the tail; `store'` is the store once the difference is in. */
  lemma FinishEntry(stream: Stream, t: Trace, first: State, st: State, job: Job, snap: Hash, store': Store)
    returns (t': Trace, last: State)
    requires Traces(stream, t, 0, first, st) && |st.pcs| == 1 && st.pcs[0] == Stored(job, 0, snap)
    requires Applied(st.store, store', snap, job.doc)
    ensures Traces(stream, t', 0, first, last)
    ensures var before := st.(pcs := [Idle], acked := st.acked + {job.entry});
            var markers, applied := st.markers + {JobMarker(job)}, st.applied + [job.entry];
            last == if JobMarker(job) in st.markers then before
                    else before.(store := store', markers := markers, applied := applied)
  {
    var seen := JobMarker(job) in st.markers;
    var marking := Moved(st, 0, Marking(job, 0, snap, seen));
    ExtendTraces(stream, t, 0, first, st, Watch2(0), marking);
    t' := Extend(t, Watch2(0), marking);
    var done := Moved(marking, 0, Tail(job));
    if !seen {
      done := done.(store := store', markers := st.markers + {JobMarker(job)}, applied := st.applied + [job.entry]);
    }
    ExtendTraces(stream, t', 0, first, marking, Exec2(0), done);
    t' := Extend(t', Exec2(0), done);
    last := Moved(done, 0, Idle).(acked := st.acked + {job.entry});
    ExtendTraces(stream, t', 0, first, done, Ack(0), last);
    t' := Extend(t', Ack(0), last);
  }

  // ------------------------------------------------------------ a store with a difference applied

  const ALL_FIELDS := {SumWs, SumWsSq, SumWsUp, SumWsUpSq, SumWsDown, SumWsDownSq, Count}

  function Tenors(h: Hash, d: Doc): set<Option<string>> {
    var prior := ParseOld(h, d.riskClass, d.sensType);
    {None} + set t | t in ScalarTenors(prior, d) + CurvatureTenors(prior, d) :: Some(t)
  }

  /** The fields a difference may address. */
  function Addressed(h: Hash, d: Doc): set<Slot> {
    set t, f | t in Tenors(h, d) && f in ALL_FIELDS :: Slot(RollupKey(GroupOf(d), t), f)
  }

  ghost function WithDifference(store: Store, h: Hash, d: Doc): Store {
    store + map s | s in Addressed(h, d) :: Get(store, s) + Sent(h, d, s)
  }

  lemma FieldListed(f: Field)
    ensures f in ALL_FIELDS
  {
    match f {
      case SumWs =>
      case SumWsSq =>
      case SumWsUp =>
      case SumWsUpSq =>
      case SumWsDown =>
      case SumWsDownSq =>
      case Count =>
    }
  }

  lemma DifferenceApplied(store: Store, h: Hash, d: Doc)
    ensures Applied(store, WithDifference(store, h, d), h, d)
  {
    forall s ensures Get(WithDifference(store, h, d), s) == Get(store, s) + Sent(h, d, s) {
      FieldListed(s.field);
      if s !in Addressed(h, d) {
        if InGroup(d, s.key) {
          PlacedKey(d, s.key);
          assert TenorAt(d, s.key) !in Tenors(h, d);
        }
        assert Sent(h, d, s) == 0.0;
      }
    }
  }

  const FRESH := State(map[], map[], map[], {}, {}, [], [Idle])

  /** What an undisturbed consumer leaves behind for a row with a group. */
  ghost predicate Handled(st: State, job: Job, last: State) {
    var h, marker := HashAt(st.docs, job.id), JobMarker(job);
    && last.pcs == [Idle] && last.docs == st.docs[job.id := h + Flatten(job.doc)]
    && last.acked == st.acked + {job.entry} && last.markers == st.markers + {marker}
    && (if marker in st.markers then last.store == st.store && last.applied == st.applied
        else Applied(st.store, last.store, h, job.doc) && last.applied == st.applied + [job.entry])
  }

  lemma WholeEntry(stream: Stream, t: Trace, first: State, st: State, job: Job) returns (t': Trace, last: State)
    requires Traces(stream, t, 0, first, st) && |st.pcs| == 1 && st.pcs[0].Idle? && job.entry !in st.acked
    requires JobOk(stream, job) && HasGroup(job.doc)
    ensures Traces(stream, t', 0, first, last) && Handled(st, job, last)
  {
    var h := HashAt(st.docs, job.id);
    t' := WriteDocument(stream, t, first, st, job);
    DifferenceApplied(st.store, h, job.doc);
    t', last := FinishEntry(stream, t', first, WriteState(st, job), job, h, WithDifference(st.store, h, job.doc));
  }
}
