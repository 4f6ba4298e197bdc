/**
 Streams that mix scalar and per-tenor rows: what each write leaves off at a rollup field, told from
 the stored HASH and the row, and so what every run leaves the rollups at.

 Everything is per key: rows of other groups may be anything.
 */
module Tracking {
  import opened Json
  import opened Sums
  import opened Docs
  import opened Rollup
  import opened HashForm
  import opened RoundTrip
  import opened Deltas
  import opened Ingest
  import opened Backfill
  import opened Reconcile

  /** Rows of one id keep their class, bucket and type. */
  ghost predicate GroupStable(stream: Stream) {
    forall e, f | e in stream && f in stream && stream[e].Row? && stream[f].Row? && stream[e].id == stream[f].id ::
      SameGroup(stream[e].doc, stream[f].doc)
  }

  /** A row of a group the key is of. */
  predicate RowAt(stream: Stream, e: EntryId, key: string) {
    e in stream && stream[e].Row? && InGroup(stream[e].doc, key)
  }

  /** A per-tenor row with at least one tenor. */
  ghost predicate TenorRow(d: Doc) {
    PerTenor(d) && if d.sensType == "Curvature" then d.cvrUpPerTenor.value != map[] else d.perTenor.value != map[]
  }

  /** A scalar row with its figures, or a per-tenor row that survives its HASH. */
  ghost predicate Steady(d: Doc) { if PerTenor(d) then Faithful(d) else HasFigures(d) }

  ghost predicate SameTenorSet(d: Doc, e: Doc) { forall t :: HasTenorOf(d, t) <==> HasTenorOf(e, t) }

  /** Ids do not change between scalar and per-tenor or, when steady, their tenors. */
  ghost predicate SameKind(d: Doc, e: Doc, steady: bool) {
    (PerTenor(d) <==> PerTenor(e)) && (steady && PerTenor(d) ==> SameTenorSet(d, e))
  }

  /** The rows of the key's groups are scalar or per-tenor, each id of one kind; rows elsewhere are unrestricted. */
  ghost predicate RowsAt(stream: Stream, key: string, steady: bool) {
    && GroupStable(stream)
    && (forall e | RowAt(stream, e, key) ::
          (ScalarShape(stream[e].doc) || TenorRow(stream[e].doc)) && (steady ==> Steady(stream[e].doc)))
    && (forall e, f | RowAt(stream, e, key) && RowAt(stream, f, key) && stream[e].id == stream[f].id ::
          SameKind(stream[e].doc, stream[f].doc, steady))
  }

  // ------------------------------------------------------------ what one write leaves off

  /** A per-tenor document as its HASH gives it back: the base figures are the totals of the tenors. */
  ghost function Totalled(d: Doc): Doc
    requires PerTenor(d)
  {
    if d.sensType == "Curvature" then
      d.(cvrUp := Some(TenorTotal(d.cvrUpPerTenor.value)), cvrDown := Some(TenorTotal(d.cvrDownPerTenor.value)))
    else d.(value := Some(TenorTotal(d.perTenor.value)))
  }

  /**
   What the rollup field misses when `d` is written over `h`. A scalar row: a figure that arrives late is
   not counted. A first per-tenor row: its base figures keep amounts its labels overwrote. A later one: what
   `Missed` says of its tenors and the stored ones.
   */
  ghost function Misses(h: Hash, d: Doc, s: Slot): real {
    if PerTenor(d) then
      if TenorHash(h, d) then Missed(Reconstruct(h), d, s)
      else if PlaceOf(d, s.key).Base? then BaseField(Totalled(d), s.field) - BaseField(d, s.field) else 0.0
    else if HasGroup(d) && s == BaseSlot(d, Count) && h != map[] && HasFigures(d) && !HashHasFigures(h, d) then 1.0
    else 0.0
  }

  /** The stored HASH of a row's id. */
  ghost predicate KeptAs(h: Hash, d: Doc, steady: bool) {
    if PerTenor(d) then TenorHash(h, d) && (steady ==> SameTenorSet(Reconstruct(h), d))
    else ScalarHash(h, d) && (steady ==> HashHasFigures(h, d))
  }

  ghost predicate DocsKept(stream: Stream, docs: map<Id, Hash>, key: string, steady: bool) {
    forall e | e in stream && stream[e].Row? && stream[e].id in docs ::
      && SameGroup(Header(docs[stream[e].id]), stream[e].doc)
      && (InGroup(stream[e].doc, key) ==> KeptAs(docs[stream[e].id], stream[e].doc, steady))
  }

  lemma HeaderAfterMerge(h: Hash, d: Doc)
    requires h == map[] || SameGroup(Header(h), d)
    ensures SameGroup(Header(h + Flatten(d)), d)
  {
    NumberFieldNames(d);
    TagNames("risk_class");
    TagNames("bucket");
    TagNames("sensitivity_type");
  }

  lemma ScalarKeptMerge(h: Hash, d: Doc, steady: bool)
    requires ScalarShape(d) && (h == map[] || KeptAs(h, d, steady)) && (steady ==> HasFigures(d))
    ensures KeptAs(h + Flatten(d), d, steady)
  {
    HeaderOfMerge(h, d);
    if HasFigures(d) {
      ScalarMergeHasNoTenors(h, d);
      ScalarNumbers(h, d);
    } else {
      ValuelessFields(h, d, "cvr_up");
      ValuelessFields(h, d, "cvr_down");
    }
  }

  /** A per-tenor document writes no scalar field. */
  lemma NoScalarWritten(h: Hash, d: Doc, leg: string)
    requires PerTenor(d) && IsLeg(leg) && NumberAt(h, FieldName(d.riskClass, leg)).None?
    ensures NumberAt(h + Flatten(d), FieldName(d.riskClass, leg)).None?
  {
    FlattenSplits(d);
    NoScalarTag(d, leg);
    ScalarNames(d.riskClass);
    assert NoTenorName(d.riskClass, FieldName(d.riskClass, leg));
  }

  lemma ScalarsStayAway(h: Hash, d: Doc)
    requires PerTenor(d) && (h == map[] || NoScalars(h, d))
    ensures NoScalars(h + Flatten(d), d)
  {
    if d.sensType == "Curvature" {
      NoScalarWritten(h, d, "cvr_up");
      NoScalarWritten(h, d, "cvr_down");
    } else {
      NoScalarWritten(h, d, Leg(d.sensType));
    }
  }

  lemma ReconstructedKind(h: Hash)
    ensures var r := Reconstruct(h);
            if r.sensType == "Curvature" then r.perTenor.None? && r.value.None?
            else r.cvrUp.None? && r.cvrDown.None? && r.cvrUpPerTenor.None? && r.cvrDownPerTenor.None?
  {
  }

  lemma FirstWriteReconstructs(d: Doc)
    requires TenorRow(d)
    ensures SameFigures(Reconstruct(map[] + Flatten(d)), Totalled(d))
  {
    assert map[] + Flatten(d) == Flatten(d);
    if d.sensType == "Curvature" { CurvatureReconstructs(d); } else { ValueReconstructs(d); }
  }

  lemma TotalledTenors(d: Doc, r: Doc)
    requires PerTenor(d) && SameFigures(r, Totalled(d))
    requires if d.sensType == "Curvature" then r.perTenor.None? && r.value.None?
             else r.cvrUp.None? && r.cvrDown.None? && r.cvrUpPerTenor.None? && r.cvrDownPerTenor.None?
    ensures PerTenor(r) && SameTenorSet(r, d)
  {
  }

  lemma StillTenorHash(h: Hash, d: Doc, r: Doc)
    requires SameGroup(Header(h), d) && NoScalars(h, d) && r == Reconstruct(h) && PerTenor(r)
    ensures TenorHash(h, d)
  {
  }

  lemma FirstTenorKept(d: Doc)
    requires TenorRow(d)
    ensures KeptAs(map[] + Flatten(d), d, true)
  {
    var h := map[] + Flatten(d);
    HeaderOfMerge(map[], d);
    FirstWriteReconstructs(d);
    ScalarsStayAway(map[], d);
    ReconstructedKind(h);
    TotalledTenors(d, Reconstruct(h));
    StillTenorHash(h, d, Reconstruct(h));
  }

  lemma OverlaidTenors(r: Doc, d: Doc, merged: Doc)
    requires PerTenor(r) && PerTenor(d) && SameGroup(r, d) && SameFigures(merged, Overlaid(r, d))
    requires if d.sensType == "Curvature" then merged.perTenor.None? && merged.value.None?
             else merged.cvrUp.None? && merged.cvrDown.None? && merged.cvrUpPerTenor.None?
                  && merged.cvrDownPerTenor.None?
    ensures PerTenor(merged) && forall t :: HasTenorOf(merged, t) <==> HasTenorOf(r, t) || HasTenorOf(d, t)
  {
  }

  lemma LaterTenorKept(h: Hash, d: Doc, steady: bool)
    requires PerTenor(d) && KeptAs(h, d, steady)
    ensures KeptAs(h + Flatten(d), d, steady)
  {
    HeaderOfMerge(h, d);
    TenorsMergeReconstruct(h, d);
    ScalarsStayAway(h, d);
    ReconstructedKind(h + Flatten(d));
    var r, merged := Reconstruct(h), Reconstruct(h + Flatten(d));
    OverlaidTenors(r, d, merged);
    StillTenorHash(h + Flatten(d), d, merged);
  }

  lemma KeptMerge(h: Hash, d: Doc, steady: bool)
    requires (ScalarShape(d) || TenorRow(d)) && (steady ==> Steady(d)) && (h == map[] || KeptAs(h, d, steady))
    ensures KeptAs(h + Flatten(d), d, steady)
  {
    if !PerTenor(d) {
      ScalarKeptMerge(h, d, steady);
    } else if h == map[] {
      FirstTenorKept(d);
    } else {
      LaterTenorKept(h, d, steady);
    }
  }

  lemma KeptOther(h: Hash, d: Doc, e: Doc, steady: bool)
    requires KeptAs(h, d, steady) && SameGroup(d, e) && SameKind(d, e, steady)
    ensures KeptAs(h, e, steady)
  {
  }

  lemma {:induction false} DocsKeptStep(stream: Stream, key: string, steady: bool, st: State, step: Step, st': State)
    requires Inv(stream, st) && RowsAt(stream, key, steady) && DocsKept(stream, st.docs, key, steady)
             && Next(stream, st, step, st')
    ensures DocsKept(stream, st'.docs, key, steady)
  {
    if step.Exec1? {
      var job := st.pcs[step.c].job;
      assert PcOk(stream, st, st.pcs[step.c]);
      var h, j := HashAt(st.docs, job.id), job.entry;
      assert stream[j].Row?;
      HeaderAfterMerge(h, job.doc);
      if InGroup(job.doc, key) {
        assert RowAt(stream, j, key);
        KeptMerge(h, job.doc, steady);
      }
      forall e | e in stream && stream[e].Row? && stream[e].id in st'.docs
        ensures SameGroup(Header(st'.docs[stream[e].id]), stream[e].doc)
        ensures InGroup(stream[e].doc, key) ==> KeptAs(st'.docs[stream[e].id], stream[e].doc, steady)
      {
        if stream[e].id == job.id {
          assert SameGroup(stream[j].doc, stream[e].doc);
          if InGroup(stream[e].doc, key) {
            assert RowAt(stream, e, key) && RowAt(stream, j, key);
            KeptOther(h + Flatten(job.doc), job.doc, stream[e].doc, steady);
          }
        }
      }
    }
  }

  lemma {:induction false} DocsKeptRun(stream: Stream, key: string, steady: bool, states: seq<State>, steps: seq<Step>,
      n: nat)
    requires StreamOk(stream) && RowsAt(stream, key, steady) && Run(stream, states, steps) && Init(states[0])
             && n <= |steps|
    ensures DocsKept(stream, states[n].docs, key, steady)
  {
    if n > 0 {
      DocsKeptRun(stream, key, steady, states, steps, n - 1);
      InvRun(stream, states, steps, n - 1);
      DocsKeptStep(stream, key, steady, states[n - 1], steps[n - 1], states[n]);
    }
  }

  // ------------------------------------------------------------ a miscount is what the write misses

  lemma OutsideMissesNothing(h: Hash, d: Doc, s: Slot)
    requires !InGroup(d, s.key) && (h == map[] || SameGroup(Header(h), d))
    ensures Miscount(h, d, s) == Misses(h, d, s) == 0.0
  {
    HeaderAfterMerge(h, d);
    WorthlessOutside(h + Flatten(d), d, s);
    if h == map[] { NothingIsWorthless(s); } else { WorthlessOutside(h, d, s); }
    assert Sent(h, d, s) == 0.0;
    NoMissOutside(h, d, s);
  }

  lemma WorthlessOutside(h: Hash, d: Doc, s: Slot)
    requires SameGroup(Header(h), d) && !InGroup(d, s.key)
    ensures Worth(h, s) == 0.0
  {
    ReconstructedGroup(h);
  }

  lemma ReconstructedGroup(h: Hash)
    ensures SameGroup(Reconstruct(h), Header(h))
  {
  }

  lemma NoMissOutside(h: Hash, d: Doc, s: Slot)
    requires !InGroup(d, s.key)
    ensures Misses(h, d, s) == 0.0
  {
    if TenorHash(h, d) { ReconstructedGroup(h); }
  }

  lemma ScalarMisses(h: Hash, d: Doc, s: Slot)
    requires Enriched(d) && ScalarShape(d) && (h == map[] || KeptAs(h, d, false))
    ensures Miscount(h, d, s) == Misses(h, d, s)
  {
    if h == map[] {
      FirstIngestExactly(d);
      RoundTripExactly(d);
    } else {
      ScalarReingest(h, d, s);
    }
  }

  lemma FirstTenorMisses(d: Doc, s: Slot)
    requires TenorRow(d)
    ensures Miscount(map[], d, s) == Misses(map[], d, s)
  {
    FirstWriteReconstructs(d);
    SameFiguresSameContribution(Reconstruct(map[] + Flatten(d)), Totalled(d), s);
    FirstIngestSendsAll(d, s);
    NothingIsWorthless(s);
    NothingIsNoTenorHash(d);
    TotalsDiffer(d, s);
  }

  lemma NothingIsNoTenorHash(d: Doc)
    requires HasGroup(d)
    ensures !TenorHash(map[], d)
  {
  }

  lemma TotalsDiffer(d: Doc, s: Slot)
    requires PerTenor(d)
    ensures Contribution(Totalled(d), s) - Contribution(d, s)
            == if PlaceOf(d, s.key).Base? then BaseField(Totalled(d), s.field) - BaseField(d, s.field) else 0.0
  {
  }

  lemma WriteMisses(h: Hash, d: Doc, s: Slot)
    requires Enriched(d) && (h == map[] || SameGroup(Header(h), d))
    requires InGroup(d, s.key) ==> (ScalarShape(d) || TenorRow(d)) && (h == map[] || KeptAs(h, d, false))
    ensures Miscount(h, d, s) == Misses(h, d, s)
  {
    if !InGroup(d, s.key) {
      OutsideMissesNothing(h, d, s);
    } else if !PerTenor(d) {
      ScalarMisses(h, d, s);
    } else if h == map[] {
      FirstTenorMisses(d, s);
    } else {
      TenorReingest(h, d, s);
    }
  }

  /** What the base rollup keeps of the per-tenor document a write replaces. */
  ghost function ReplacedBy(h: Hash, d: Doc, s: Slot): real {
    if PerTenor(d) && PlaceOf(d, s.key).Base? && s.field != Count then Worth(h, s) else 0.0
  }

  lemma SameTenorsMiss(r: Doc, d: Doc, s: Slot)
    requires PerTenor(r) && PerTenor(d) && SameGroup(r, d) && SameTenorSet(r, d) && Faithful(d)
    ensures Missed(r, d, s) == if PlaceOf(d, s.key).Base? && s.field != Count then -Contribution(r, s) else 0.0
  {
    OverlaidBase(r, d);
    if PlaceOf(d, s.key).At? {
      var t := PlaceOf(d, s.key).tenor;
      assert HasTenorOf(r, t) <==> HasTenorOf(d, t);
    }
  }

  lemma FaithfulTotals(d: Doc)
    requires PerTenor(d) && Faithful(d)
    ensures Totalled(d) == d
  {
  }

  /** Figures come with every scalar row, tenors stay: only the replaced base sums are left off. */
  lemma SteadyMisses(h: Hash, d: Doc, s: Slot)
    requires InGroup(d, s.key) ==> (ScalarShape(d) || TenorRow(d)) && Steady(d) && (h == map[] || KeptAs(h, d, true))
    ensures Misses(h, d, s) == -ReplacedBy(h, d, s)
  {
    if InGroup(d, s.key) && PerTenor(d) {
      if h == map[] {
        NothingIsNoTenorHash(d);
        NothingIsWorthless(s);
        FaithfulTotals(d);
      } else {
        SameTenorsMiss(Reconstruct(h), d, s);
      }
    }
  }

  // ------------------------------------------------------------ runs

  /** The HASH and the row of a document write. */
  ghost predicate Writes(st: State, step: Step) { step.Exec1? && step.c < |st.pcs| && st.pcs[step.c].Watching? }

  ghost function MissedAt(st: State, step: Step, s: Slot): real {
    if Writes(st, step) then Misses(HashAt(st.docs, st.pcs[step.c].job.id), st.pcs[step.c].job.doc, s) else 0.0
  }

  ghost function ReplacedAt(st: State, step: Step, s: Slot): real {
    if Writes(st, step) then ReplacedBy(HashAt(st.docs, st.pcs[step.c].job.id), st.pcs[step.c].job.doc, s) else 0.0
  }

  ghost function MissedUpTo(states: seq<State>, steps: seq<Step>, n: nat, s: Slot): real
    requires n <= |steps| && |states| == |steps| + 1
  {
    if n == 0 then 0.0 else MissedUpTo(states, steps, n - 1, s) + MissedAt(states[n - 1], steps[n - 1], s)
  }

  ghost function ReplacedUpTo(states: seq<State>, steps: seq<Step>, n: nat, s: Slot): real
    requires n <= |steps| && |states| == |steps| + 1
  {
    if n == 0 then 0.0 else ReplacedUpTo(states, steps, n - 1, s) + ReplacedAt(states[n - 1], steps[n - 1], s)
  }

  lemma RowOfWrite(stream: Stream, states: seq<State>, steps: seq<Step>, n: nat, key: string) returns (e: EntryId)
    requires StreamOk(stream) && Run(stream, states, steps) && Init(states[0]) && n < |steps|
             && Writes(states[n], steps[n])
    ensures var job := states[n].pcs[steps[n].c].job;
            e in stream && stream[e] == Row(job.id, job.doc) && (InGroup(job.doc, key) ==> RowAt(stream, e, key))
  {
    InvRun(stream, states, steps, n);
    assert PcOk(stream, states[n], states[n].pcs[steps[n].c]);
    e := states[n].pcs[steps[n].c].job.entry;
    assert stream[e].Row?;
  }

  lemma WriteOfStep(stream: Stream, key: string, steady: bool, st: State, step: Step, st': State) returns (e: EntryId)
    requires Inv(stream, st) && RowsAt(stream, key, steady) && DocsKept(stream, st.docs, key, steady)
             && Next(stream, st, step, st') && step.Exec1?
    ensures Writes(st, step) && e in stream && stream[e] == Row(st.pcs[step.c].job.id, st.pcs[step.c].job.doc)
    ensures var h, d := HashAt(st.docs, stream[e].id), stream[e].doc;
            && Enriched(d) && (h == map[] || SameGroup(Header(h), d))
            && (InGroup(d, key) ==> && (ScalarShape(d) || TenorRow(d)) && (steady ==> Steady(d))
                                    && (h == map[] || KeptAs(h, d, steady)))
  {
    assert PcOk(stream, st, st.pcs[step.c]);
    e := st.pcs[step.c].job.entry;
    assert stream[e].Row?;
    if InGroup(stream[e].doc, key) { assert RowAt(stream, e, key); }
  }

  lemma DriftIsMissed(stream: Stream, st: State, step: Step, st': State, s: Slot)
    requires Inv(stream, st) && RowsAt(stream, s.key, false) && DocsKept(stream, st.docs, s.key, false)
             && Next(stream, st, step, st')
    ensures Drift(st, step, s) == MissedAt(st, step, s)
  {
    if step.Exec1? {
      var e := WriteOfStep(stream, s.key, false, st, step, st');
      WriteMisses(HashAt(st.docs, stream[e].id), stream[e].doc, s);
    }
  }

  lemma MissedStep(stream: Stream, states: seq<State>, steps: seq<Step>, n: nat, s: Slot)
    requires StreamOk(stream) && RowsAt(stream, s.key, false) && Run(stream, states, steps) && Init(states[0])
             && n < |steps|
    ensures Drift(states[n], steps[n], s) == MissedAt(states[n], steps[n], s)
  {
    DocsKeptRun(stream, s.key, false, states, steps, n);
    InvRun(stream, states, steps, n);
    DriftIsMissed(stream, states[n], steps[n], states[n + 1], s);
  }

  lemma {:induction false} MissedRun(stream: Stream, states: seq<State>, steps: seq<Step>, n: nat, s: Slot)
    requires StreamOk(stream) && RowsAt(stream, s.key, false) && Run(stream, states, steps) && Init(states[0])
             && n <= |steps|
    ensures DriftUpTo(states, steps, n, s) == MissedUpTo(states, steps, n, s)
  {
    if n > 0 {
      MissedRun(stream, states, steps, n - 1, s);
      MissedStep(stream, states, steps, n - 1, s);
    }
  }

  /**
   In every interleaving and at every moment: the rollup plus the differences in flight is what the stored
   documents are worth, short exactly of what crashes, exhausted retries and replays under an existing
   marker threw away and of what the writes left off.
   */
  lemma RollupsTrackDocuments(stream: Stream, states: seq<State>, steps: seq<Step>, n: nat, s: Slot)
    requires StreamOk(stream) && RowsAt(stream, s.key, false) && Run(stream, states, steps) && Init(states[0])
             && n <= |steps|
    ensures Get(states[n].store, s) + SumBy(HeldAt(s), states[n].pcs)
            == SumMap(WorthAt(s), states[n].docs) - LostUpTo(states, steps, n, s) - MissedUpTo(states, steps, n, s)
  {
    GapRun(stream, states, steps, n, s);
    MissedRun(stream, states, steps, n, s);
  }

  lemma SteadyStep(stream: Stream, st: State, step: Step, st': State, s: Slot)
    requires Inv(stream, st) && RowsAt(stream, s.key, true) && DocsKept(stream, st.docs, s.key, true)
             && Next(stream, st, step, st')
    ensures MissedAt(st, step, s) == -ReplacedAt(st, step, s)
  {
    if step.Exec1? {
      var e := WriteOfStep(stream, s.key, true, st, step, st');
      SteadyMisses(HashAt(st.docs, stream[e].id), stream[e].doc, s);
    }
  }

  lemma SteadyStepAt(stream: Stream, states: seq<State>, steps: seq<Step>, n: nat, s: Slot)
    requires StreamOk(stream) && RowsAt(stream, s.key, true) && Run(stream, states, steps) && Init(states[0])
             && n < |steps|
    ensures MissedAt(states[n], steps[n], s) == -ReplacedAt(states[n], steps[n], s)
  {
    DocsKeptRun(stream, s.key, true, states, steps, n);
    InvRun(stream, states, steps, n);
    SteadyStep(stream, states[n], steps[n], states[n + 1], s);
  }

  lemma {:induction false} ReplacedIsMissed(states: seq<State>, steps: seq<Step>, n: nat, s: Slot)
    requires n <= |steps| && |states| == |steps| + 1
    requires forall k | 0 <= k < n :: MissedAt(states[k], steps[k], s) == -ReplacedAt(states[k], steps[k], s)
    ensures MissedUpTo(states, steps, n, s) == -ReplacedUpTo(states, steps, n, s)
    decreases n
  {
    if n > 0 {
      ReplacedIsMissed(states, steps, n - 1, s);
    }
  }

  lemma SteadyRun(stream: Stream, states: seq<State>, steps: seq<Step>, n: nat, s: Slot)
    requires StreamOk(stream) && RowsAt(stream, s.key, true) && Run(stream, states, steps) && Init(states[0])
             && n <= |steps|
    ensures MissedUpTo(states, steps, n, s) == -ReplacedUpTo(states, steps, n, s)
  {
    forall k | 0 <= k < n ensures MissedAt(states[k], steps[k], s) == -ReplacedAt(states[k], steps[k], s) {
      SteadyStepAt(stream, states, steps, k, s);
    }
    ReplacedIsMissed(states, steps, n, s);
  }

  /**
   When every scalar row carries its figure and every id keeps its tenors, tenor rollups, counts and the base sums
   of scalar classes miss nothing; the base sums of per-tenor classes are over by every figure a re-ingest replaced.
   */
  lemma SteadyRollupsTrackDocuments(stream: Stream, states: seq<State>, steps: seq<Step>, n: nat, s: Slot)
    requires StreamOk(stream) && RowsAt(stream, s.key, true) && Run(stream, states, steps) && Init(states[0])
             && n <= |steps|
    ensures Get(states[n].store, s) + SumBy(HeldAt(s), states[n].pcs)
         == SumMap(WorthAt(s), states[n].docs) - LostUpTo(states, steps, n, s) + ReplacedUpTo(states, steps, n, s)
    ensures s.field == Count || NoTenorBase(stream, s.key) ==> ReplacedUpTo(states, steps, n, s) == 0.0
  {
    RollupsTrackDocuments(stream, states, steps, n, s);
    SteadyRun(stream, states, steps, n, s);
    if s.field == Count || NoTenorBase(stream, s.key) { NothingReplaced(stream, states, steps, n, s); }
  }

  /** The key is no base key of a per-tenor row. */
  ghost predicate NoTenorBase(stream: Stream, key: string) {
    forall e | RowAt(stream, e, key) && PlaceOf(stream[e].doc, key).Base? :: !PerTenor(stream[e].doc)
  }

  lemma NothingReplacedAt(stream: Stream, states: seq<State>, steps: seq<Step>, n: nat, s: Slot)
    requires StreamOk(stream) && Run(stream, states, steps) && Init(states[0]) && n < |steps|
    requires s.field == Count || NoTenorBase(stream, s.key)
    ensures ReplacedAt(states[n], steps[n], s) == 0.0
  {
    if Writes(states[n], steps[n]) { var _ := RowOfWrite(stream, states, steps, n, s.key); }
  }

  lemma {:induction false} ReplacingNothing(states: seq<State>, steps: seq<Step>, n: nat, s: Slot)
    requires n <= |steps| && |states| == |steps| + 1
    requires forall i | 0 <= i < n :: ReplacedAt(states[i], steps[i], s) == 0.0
    ensures ReplacedUpTo(states, steps, n, s) == 0.0
  {
    if n > 0 {
      ReplacingNothing(states, steps, n - 1, s);
    }
  }

  lemma NothingReplaced(stream: Stream, states: seq<State>, steps: seq<Step>, n: nat, s: Slot)
    requires StreamOk(stream) && Run(stream, states, steps) && Init(states[0]) && n <= |steps|
    requires s.field == Count || NoTenorBase(stream, s.key)
    ensures ReplacedUpTo(states, steps, n, s) == 0.0
  {
    forall i | 0 <= i < n ensures ReplacedAt(states[i], steps[i], s) == 0.0 {
      NothingReplacedAt(stream, states, steps, i, s);
    }
    ReplacingNothing(states, steps, n, s);
  }

  // ------------------------------------------------------------ scalar classes

  /** The rows of the key's groups are scalar; with their figures, if `figured`. */
  ghost predicate ScalarRowsAt(stream: Stream, key: string, figured: bool) {
    GroupStable(stream)
    && forall e | RowAt(stream, e, key) :: ScalarShape(stream[e].doc) && (figured ==> HasFigures(stream[e].doc))
  }

  lemma ScalarSumMissesNothing(h: Hash, d: Doc, s: Slot)
    requires s.field != Count && (InGroup(d, s.key) ==> ScalarShape(d))
    ensures Misses(h, d, s) == 0.0
  {
    if !InGroup(d, s.key) { NoMissOutside(h, d, s); }
  }

  lemma SumMissesNothingAt(stream: Stream, states: seq<State>, steps: seq<Step>, n: nat, s: Slot)
    requires StreamOk(stream) && ScalarRowsAt(stream, s.key, false) && Run(stream, states, steps) && Init(states[0])
             && n < |steps| && s.field != Count
    ensures MissedAt(states[n], steps[n], s) == 0.0
  {
    if Writes(states[n], steps[n]) {
      var e := RowOfWrite(stream, states, steps, n, s.key);
      ScalarSumMissesNothing(HashAt(states[n].docs, stream[e].id), stream[e].doc, s);
    }
  }

  lemma {:induction false} MissingNothing(states: seq<State>, steps: seq<Step>, n: nat, s: Slot)
    requires n <= |steps| && |states| == |steps| + 1
    requires forall k | 0 <= k < n :: MissedAt(states[k], steps[k], s) == 0.0
    ensures MissedUpTo(states, steps, n, s) == 0.0
    decreases n
  {
    if n > 0 {
      MissingNothing(states, steps, n - 1, s);
    }
  }

  lemma SumsMissNothing(stream: Stream, states: seq<State>, steps: seq<Step>, n: nat, s: Slot)
    requires StreamOk(stream) && ScalarRowsAt(stream, s.key, false) && Run(stream, states, steps) && Init(states[0])
             && n <= |steps| && s.field != Count
    ensures MissedUpTo(states, steps, n, s) == 0.0
  {
    forall k | 0 <= k < n ensures MissedAt(states[k], steps[k], s) == 0.0 {
      SumMissesNothingAt(stream, states, steps, k, s);
    }
    MissingNothing(states, steps, n, s);
  }

  /** At keys of scalar rows nothing is left off, whatever else the streams carry; counts need every figure. */
  lemma ScalarRollupsTrackDocuments(stream: Stream, figured: bool, states: seq<State>, steps: seq<Step>, n: nat,
      s: Slot)
    requires StreamOk(stream) && ScalarRowsAt(stream, s.key, figured) && Run(stream, states, steps) && Init(states[0])
             && n <= |steps|
    requires figured || s.field != Count
    ensures Get(states[n].store, s) + SumBy(HeldAt(s), states[n].pcs)
            == SumMap(WorthAt(s), states[n].docs) - LostUpTo(states, steps, n, s)
  {
    if s.field == Count {
      SteadyRollupsTrackDocuments(stream, states, steps, n, s);
    } else {
      RollupsTrackDocuments(stream, states, steps, n, s);
      SumsMissNothing(stream, states, steps, n, s);
    }
  }

  // ------------------------------------------------------------ at rest

  /**
   At rest the rollups equal a recomputation from the stored HASHes iff what was lost and what was left off balance;
   for steady rows, iff what was lost is what was replaced.
   */
  lemma QuiescentExactly(stream: Stream, states: seq<State>, steps: seq<Step>, n: nat, s: Slot, ids: seq<Id>,
      hashes: seq<Hash>)
    requires StreamOk(stream) && RowsAt(stream, s.key, false) && Run(stream, states, steps) && Init(states[0])
             && n <= |steps|
    requires Quiescent(states[n]) && IsScan(ids, hashes, states[n].docs)
    ensures Get(states[n].store, s) == Recompute(Rebuilt(hashes), s)
            <==> LostUpTo(states, steps, n, s) + MissedUpTo(states, steps, n, s) == 0.0
    ensures RowsAt(stream, s.key, true) ==>
              (Get(states[n].store, s) == Recompute(Rebuilt(hashes), s)
               <==> LostUpTo(states, steps, n, s) == ReplacedUpTo(states, steps, n, s))
  {
    RollupsTrackDocuments(stream, states, steps, n, s);
    IdleHoldsNothing(states[n].pcs, s);
    ScanWorth(ids, hashes, states[n].docs, s);
    if RowsAt(stream, s.key, true) { SteadyRun(stream, states, steps, n, s); }
  }

  /** After a loss-free run has come to rest, a backfill adds what the writes left off, at the hashes it writes. */
  lemma BackfillRepairs(
    stream: Stream, states: seq<State>, steps: seq<Step>, ids: seq<Id>, hashes: seq<Hash>, store': Store, s: Slot)
    requires StreamOk(stream) && RowsAt(stream, s.key, false) && Run(stream, states, steps) && Init(states[0])
             && LossFree(states, steps)
    requires Quiescent(states[|steps|]) && IsScan(ids, hashes, states[|steps|].docs)
    requires BackfilledAt(states[|steps|].store, store', Rebuilt(hashes), s) && !SharedCount(Rebuilt(hashes), s)
    ensures Get(store', s) == Get(states[|steps|].store, s)
            + if Rewritten(Rebuilt(hashes), s) then MissedUpTo(states, steps, |steps|, s) else 0.0
  {
    LossFreeLosesNothing(states, steps, |steps|, s);
    RollupsTrackDocuments(stream, states, steps, |steps|, s);
    IdleHoldsNothing(states[|steps|].pcs, s);
    ScanWorth(ids, hashes, states[|steps|].docs, s);
    BackfillExactly(states[|steps|].store, store', Rebuilt(hashes), s);
  }

  lemma CountAtRest(stream: Stream, states: seq<State>, steps: seq<Step>, ids: seq<Id>, hashes: seq<Hash>, s: Slot)
    requires StreamOk(stream) && RowsAt(stream, s.key, true) && Run(stream, states, steps) && Init(states[0])
             && LossFree(states, steps) && s.field == Count
    requires Quiescent(states[|steps|]) && IsScan(ids, hashes, states[|steps|].docs)
    ensures Get(states[|steps|].store, s) == Recompute(Rebuilt(hashes), s)
  {
    NothingReplaced(stream, states, steps, |steps|, s);
    LossFreeLosesNothing(states, steps, |steps|, s);
    QuiescentExactly(stream, states, steps, |steps|, s, ids, hashes);
  }

  lemma SharedCountMoves(
    stream: Stream, states: seq<State>, steps: seq<Step>, ids: seq<Id>, hashes: seq<Hash>, store': Store, s: Slot)
    requires StreamOk(stream) && RowsAt(stream, s.key, true) && Run(stream, states, steps) && Init(states[0])
             && LossFree(states, steps)
    requires Quiescent(states[|steps|]) && IsScan(ids, hashes, states[|steps|].docs)
    requires BackfilledAt(states[|steps|].store, store', Rebuilt(hashes), s) && SharedCount(Rebuilt(hashes), s)
    ensures Rewritten(Rebuilt(hashes), s) && Get(store', s) != Get(states[|steps|].store, s)
  {
    CountAtRest(stream, states, steps, ids, hashes, s);
    BackfillExactly(states[|steps|].store, store', Rebuilt(hashes), s);
  }

  lemma SteadyRowsAreRows(stream: Stream, key: string)
    requires RowsAt(stream, key, true)
    ensures RowsAt(stream, key, false)
  {
  }

  lemma SteadyRepairs(
    stream: Stream, states: seq<State>, steps: seq<Step>, ids: seq<Id>, hashes: seq<Hash>, store': Store, s: Slot)
    requires StreamOk(stream) && RowsAt(stream, s.key, true) && Run(stream, states, steps) && Init(states[0])
             && LossFree(states, steps)
    requires Quiescent(states[|steps|]) && IsScan(ids, hashes, states[|steps|].docs)
    requires BackfilledAt(states[|steps|].store, store', Rebuilt(hashes), s) && !SharedCount(Rebuilt(hashes), s)
    ensures Get(store', s) == Get(states[|steps|].store, s)
            - if Rewritten(Rebuilt(hashes), s) then ReplacedUpTo(states, steps, |steps|, s) else 0.0
  {
    SteadyRowsAreRows(stream, s.key);
    SteadyRun(stream, states, steps, |steps|, s);
    BackfillRepairs(stream, states, steps, ids, hashes, store', s);
  }

  lemma MovedByReplaced(before: real, after: real, rewritten: bool, replaced: real)
    requires after == before - if rewritten then replaced else 0.0
    ensures after == before <==> !rewritten || replaced == 0.0
  {
  }

  /** For steady rows it leaves a field alone iff it does not write it, or nothing was replaced or count shared. */
  lemma BackfillIsIdle(
    stream: Stream, states: seq<State>, steps: seq<Step>, ids: seq<Id>, hashes: seq<Hash>, store': Store, s: Slot)
    requires StreamOk(stream) && RowsAt(stream, s.key, true) && Run(stream, states, steps) && Init(states[0])
             && LossFree(states, steps)
    requires Quiescent(states[|steps|]) && IsScan(ids, hashes, states[|steps|].docs)
    requires BackfilledAt(states[|steps|].store, store', Rebuilt(hashes), s)
    ensures Get(store', s) == Get(states[|steps|].store, s)
            <==> !Rewritten(Rebuilt(hashes), s)
                 || (!SharedCount(Rebuilt(hashes), s) && ReplacedUpTo(states, steps, |steps|, s) == 0.0)
  {
    if SharedCount(Rebuilt(hashes), s) {
      SharedCountMoves(stream, states, steps, ids, hashes, store', s);
    } else {
      SteadyRepairs(stream, states, steps, ids, hashes, store', s);
      MovedByReplaced(Get(states[|steps|].store, s), Get(store', s), Rewritten(Rebuilt(hashes), s),
          ReplacedUpTo(states, steps, |steps|, s));
    }
  }
}
