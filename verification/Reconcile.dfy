/**
 The rollups against the stored documents: what every run of the ingest protocol keeps,
 and the exact ways in which it drifts.
 */
module Reconcile {
  import opened Sums
  import opened Rollup
  import opened HashForm
  import opened Deltas
  import opened Ingest
  import opened Backfill

  ghost function WorthAt(s: Slot): Hash -> real { (h: Hash) => Worth(h, s) }

  /** The difference a consumer has computed but not committed. */
  function Held(pc: Pc, s: Slot): real {
    match pc
    case Stored(job, _, snap) => Sent(snap, job.doc, s)
    case Marking(job, _, snap, _) => Sent(snap, job.doc, s)
    case _ => 0.0
  }

  function HeldAt(s: Slot): Pc -> real { (pc: Pc) => Held(pc, s) }

  /** What the stored documents are worth and the rollup, with everything in flight, does not show. */
  ghost function Gap(st: State, s: Slot): real {
    SumMap(WorthAt(s), st.docs) - Get(st.store, s) - SumBy(HeldAt(s), st.pcs)
  }

  /** What a step throws away: a consumer that dies or gives up between the two commits, or meets its own marker. */
  function Lost(st: State, step: Step, s: Slot): real {
    match step
    case Crash(c) => if c < |st.pcs| then Held(st.pcs[c], s) else 0.0
    case Exec2(c) => if c < |st.pcs| && st.pcs[c].Marking? && st.pcs[c].seen then Held(st.pcs[c], s) else 0.0
    case Abort2(c) =>
      if c < |st.pcs| && st.pcs[c].Marking? && st.pcs[c].tries >= MAX_WATCH_RETRIES then Held(st.pcs[c], s) else 0.0
    case _ => 0.0
  }

  /** What a document write miscounts. */
  ghost function Drift(st: State, step: Step, s: Slot): real {
    match step
    case Exec1(c) =>
      if c < |st.pcs| && st.pcs[c].Watching? then Miscount(HashAt(st.docs, st.pcs[c].job.id), st.pcs[c].job.doc, s)
      else 0.0
    case _ => 0.0
  }

  lemma GapMoved(st: State, c: nat, pc: Pc, s: Slot)
    requires c < |st.pcs|
    ensures SumBy(HeldAt(s), st.pcs[c := pc]) == SumBy(HeldAt(s), st.pcs) - Held(st.pcs[c], s) + Held(pc, s)
  {
    SumByUpdate(HeldAt(s), st.pcs, c, pc);
  }

  lemma Exec1Gap(stream: Stream, st: State, c: nat, st': State, s: Slot)
    requires Inv(stream, st) && Exec1Next(st, c, st')
    ensures Gap(st', s) == Gap(st, s) + Miscount(HashAt(st.docs, st.pcs[c].job.id), st.pcs[c].job.doc, s)
  {
    var p := st.pcs[c];
    var id, h := p.job.id, HashAt(st.docs, p.job.id);
    assert PcOk(stream, st, p);
    SumMapUpdate(WorthAt(s), st.docs, id, h + Flatten(p.job.doc));
    NothingIsWorthless(s);
    GapMoved(st, c, st'.pcs[c], s);
    assert HasGroup(p.job.doc) || Sent(h, p.job.doc, s) == 0.0;
  }

  lemma Exec2Gap(st: State, c: nat, st': State, s: Slot)
    requires Exec2Next(st, c, st')
    ensures Gap(st', s) == Gap(st, s) + Lost(st, Exec2(c), s)
  {
    GapMoved(st, c, Tail(st.pcs[c].job), s);
  }

  lemma QuietGap(st: State, c: nat, pc: Pc, st': State, s: Slot)
    requires c < |st.pcs| && st'.pcs == st.pcs[c := pc] && st'.docs == st.docs && st'.store == st.store
    ensures Gap(st', s) == Gap(st, s) + Held(st.pcs[c], s) - Held(pc, s)
  {
    GapMoved(st, c, pc, s);
  }

  lemma DocumentPhaseGap(stream: Stream, st: State, step: Step, st': State, s: Slot)
    requires Next(stream, st, step, st') && (step.Take? || step.Watch1? || step.Abort1?)
    ensures Gap(st', s) == Gap(st, s)
  {
    match step {
      case Take(c, e) => if stream[e].Row? { QuietGap(st, c, st'.pcs[c], st', s); }
      case Watch1(c) => QuietGap(st, c, st'.pcs[c], st', s);
      case Abort1(c) => QuietGap(st, c, st'.pcs[c], st', s);
    }
  }

  lemma RollupPhaseGap(stream: Stream, st: State, step: Step, st': State, s: Slot)
    requires Next(stream, st, step, st') && (step.Watch2? || step.Abort2? || step.Ack? || step.Crash?)
    ensures Gap(st', s) == Gap(st, s) + Lost(st, step, s)
  {
    match step {
      case Watch2(c) => QuietGap(st, c, st'.pcs[c], st', s);
      case Abort2(c) => QuietGap(st, c, st'.pcs[c], st', s);
      case Ack(c) => QuietGap(st, c, Idle, st', s);
      case Crash(c) => QuietGap(st, c, Idle, st', s);
    }
  }

  /** Every step moves the gap by what it loses and what it miscounts, and by nothing else. */
  lemma GapStep(stream: Stream, st: State, step: Step, st': State, s: Slot)
    requires Inv(stream, st) && Next(stream, st, step, st')
    ensures Gap(st', s) == Gap(st, s) + Lost(st, step, s) + Drift(st, step, s)
  {
    if step.Exec1? {
      Exec1Gap(stream, st, step.c, st', s);
    } else if step.Exec2? {
      Exec2Gap(st, step.c, st', s);
    } else if step.Take? || step.Watch1? || step.Abort1? {
      DocumentPhaseGap(stream, st, step, st', s);
    } else {
      RollupPhaseGap(stream, st, step, st', s);
    }
  }

  ghost function LostUpTo(states: seq<State>, steps: seq<Step>, n: nat, s: Slot): real
    requires n <= |steps| && |states| == |steps| + 1
  {
    if n == 0 then 0.0 else LostUpTo(states, steps, n - 1, s) + Lost(states[n - 1], steps[n - 1], s)
  }

  ghost function DriftUpTo(states: seq<State>, steps: seq<Step>, n: nat, s: Slot): real
    requires n <= |steps| && |states| == |steps| + 1
  {
    if n == 0 then 0.0 else DriftUpTo(states, steps, n - 1, s) + Drift(states[n - 1], steps[n - 1], s)
  }

  lemma {:induction false} IdleHoldsNothing(pcs: seq<Pc>, s: Slot)
    requires forall c | 0 <= c < |pcs| :: pcs[c].Idle?
    ensures SumBy(HeldAt(s), pcs) == 0.0
  {
    SumByZero(HeldAt(s), pcs);
  }

  /** In every run, from the empty Redis on, the gap is exactly the losses plus the miscounts. */
  lemma {:induction false} GapRun(stream: Stream, states: seq<State>, steps: seq<Step>, n: nat, s: Slot)
    requires StreamOk(stream) && Run(stream, states, steps) && Init(states[0]) && n <= |steps|
    ensures Gap(states[n], s) == LostUpTo(states, steps, n, s) + DriftUpTo(states, steps, n, s)
  {
    if n == 0 {
      IdleHoldsNothing(states[0].pcs, s);
    } else {
      GapRun(stream, states, steps, n - 1, s);
      InvRun(stream, states, steps, n - 1);
      GapStep(stream, states[n - 1], steps[n - 1], states[n], s);
    }
  }

  // ------------------------------------------------------------ at rest

  ghost predicate Quiescent(st: State) { forall c | 0 <= c < |st.pcs| :: st.pcs[c].Idle? }

  /** The HASHes a full scan returns: each stored document once, in any order. */
  ghost predicate IsScan(ids: seq<Id>, hashes: seq<Hash>, docs: map<Id, Hash>) {
    && |ids| == |hashes| && (forall i, j | 0 <= i < j < |ids| :: ids[i] != ids[j])
    && (forall i | 0 <= i < |ids| :: ids[i] in docs && docs[ids[i]] == hashes[i])
    && (forall id | id in docs :: id in ids)
  }

  lemma {:induction false} RebuiltWorth(hashes: seq<Hash>, s: Slot)
    ensures Recompute(Rebuilt(hashes), s) == SumBy(WorthAt(s), hashes)
  {
    if hashes != [] {
      RebuiltWorth(hashes[1..], s);
      assert Rebuilt(hashes)[1..] == Rebuilt(hashes[1..]);
    }
  }

  lemma ScanWorth(ids: seq<Id>, hashes: seq<Hash>, docs: map<Id, Hash>, s: Slot)
    requires IsScan(ids, hashes, docs)
    ensures Recompute(Rebuilt(hashes), s) == SumMap(WorthAt(s), docs)
  {
    SumMapByListing(WorthAt(s), docs, ids, hashes);
    RebuiltWorth(hashes, s);
  }

  /** No consumer stops between its two commits, gives up there, or replays a committed entry. */
  ghost predicate LossFree(states: seq<State>, steps: seq<Step>) {
    && |states| == |steps| + 1
    && forall i | 0 <= i < |steps| ::
         match steps[i]
         case Crash(c) => c < |states[i].pcs| ==> !states[i].pcs[c].Stored? && !states[i].pcs[c].Marking?
         case Exec2(c) => c < |states[i].pcs| && states[i].pcs[c].Marking? ==> !states[i].pcs[c].seen
         case Abort2(c) =>
           c < |states[i].pcs| && states[i].pcs[c].Marking? ==> states[i].pcs[c].tries < MAX_WATCH_RETRIES
         case _ => true
  }

  lemma {:induction false} LossFreeLosesNothing(states: seq<State>, steps: seq<Step>, n: nat, s: Slot)
    requires LossFree(states, steps) && n <= |steps|
    ensures LostUpTo(states, steps, n, s) == 0.0
  {
    if n > 0 {
      LossFreeLosesNothing(states, steps, n - 1, s);
    }
  }
}
