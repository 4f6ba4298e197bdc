/**
 The bulk-load dispatcher: a high-water gate in front of round-robin workers. Producers that
 find the gate closed wait; a settled row wakes them, and a woken producer tests the gate again.
 */
module Dispatcher {
  import opened Sums
  import W = BulkWorker

  type Row = W.Row

  datatype Config = Config(worker: W.Config, highWater: nat)

  /** `waiting` and `woken` hold the rows of producers whose enqueue has not gone through. */
  datatype State = State(
    inFlight: int, waiting: seq<Row>, woken: seq<Row>, next: nat, workers: seq<W.State>, admitted: seq<Row>)

  ghost predicate ValidConfig(cfg: Config) { W.ValidConfig(cfg.worker) && cfg.highWater >= 1 }

  function Fresh(n: nat): seq<W.State> { seq(n, _ => W.Start()) }

  function Start(n: nat): State { State(0, [], [], 0, Fresh(n), []) }

  // ------------------------------------------------------------ operations

  /** One row settled; the clamp at zero is kept. */
  function SettleOne(cfg: Config, d: State): State {
    var n := if d.inFlight - 1 < 0 then 0 else d.inFlight - 1;
    if n < cfg.highWater then d.(inFlight := n, woken := d.woken + d.waiting, waiting := []) else d.(inFlight := n)
  }

  function Settle(cfg: Config, d: State, times: nat): State {
    if times == 0 then d else SettleOne(cfg, Settle(cfg, d, times - 1))
  }

  function Admit(cfg: Config, d: State, row: Row): State
    requires d.next < |d.workers|
  {
    d.(inFlight := d.inFlight + 1, workers := d.workers[d.next := W.Push(cfg.worker, d.workers[d.next], row)],
       next := (d.next + 1) % |d.workers|, admitted := d.admitted + [row])
  }

  function Enqueue(cfg: Config, d: State, row: Row): State
    requires d.next < |d.workers|
  {
    if d.inFlight >= cfg.highWater then d.(waiting := d.waiting + [row]) else Admit(cfg, d, row)
  }

  function Resume(cfg: Config, d: State, i: nat): State
    requires d.next < |d.workers| && i < |d.woken|
  {
    Enqueue(cfg, d.(woken := d.woken[..i] + d.woken[i + 1..]), d.woken[i])
  }

  /** A worker runs to its next await and reports the rows it settled on the way. */
  function Work(cfg: Config, d: State, i: nat, step: W.Step): State
    requires i < |d.workers| && W.Enabled(d.workers[i], step)
  {
    var w' := W.Apply(cfg.worker, d.workers[i], step);
    var n := W.Settled(w') - W.Settled(d.workers[i]);
    Settle(cfg, d.(workers := d.workers[i := w']), if n >= 0 then n else 0)
  }

  datatype Step = EnqueueRow(row: Row) | ResumeProducer(i: nat) | WorkerStep(w: nat, step: W.Step)

  predicate Enabled(d: State, step: Step) {
    match step
    case EnqueueRow(_) => d.next < |d.workers|
    case ResumeProducer(i) => d.next < |d.workers| && i < |d.woken|
    case WorkerStep(i, s) => i < |d.workers| && !s.PushRow? && W.Enabled(d.workers[i], s)
  }

  function Apply(cfg: Config, d: State, step: Step): State
    requires Enabled(d, step)
  {
    match step
    case EnqueueRow(row) => Enqueue(cfg, d, row)
    case ResumeProducer(i) => Resume(cfg, d, i)
    case WorkerStep(i, s) => Work(cfg, d, i, s)
  }

  // ------------------------------------------------------------ sums over the workers

  function PendingOf(ws: seq<W.State>): nat { if ws == [] then 0 else W.Pending(ws[0]) + PendingOf(ws[1..]) }

  function LocatedIn(ws: seq<W.State>, row: Row): nat {
    if ws == [] then 0 else W.Located(ws[0], row) + LocatedIn(ws[1..], row)
  }

  function SettledIn(ws: seq<W.State>, row: Row): nat {
    if ws == [] then 0 else W.SettledCopies(ws[0], row) + SettledIn(ws[1..], row)
  }

  lemma {:induction false} PendingUpdate(ws: seq<W.State>, i: nat, w: W.State)
    requires i < |ws|
    ensures PendingOf(ws[i := w]) == PendingOf(ws) - W.Pending(ws[i]) + W.Pending(w)
    ensures W.Pending(ws[i]) <= PendingOf(ws)
  {
    if i == 0 {
      assert ws[i := w][1..] == ws[1..];
    } else {
      assert ws[i := w][1..] == ws[1..][i - 1 := w];
      PendingUpdate(ws[1..], i - 1, w);
    }
  }

  lemma {:induction false} LocatedUpdate(ws: seq<W.State>, i: nat, w: W.State, row: Row)
    requires i < |ws|
    ensures LocatedIn(ws[i := w], row) == LocatedIn(ws, row) - W.Located(ws[i], row) + W.Located(w, row)
  {
    if i == 0 {
      assert ws[i := w][1..] == ws[1..];
    } else {
      assert ws[i := w][1..] == ws[1..][i - 1 := w];
      LocatedUpdate(ws[1..], i - 1, w, row);
    }
  }

  lemma {:induction false} FreshHolds(n: nat, row: Row)
    ensures PendingOf(Fresh(n)) == 0 && LocatedIn(Fresh(n), row) == 0
  {
    if n > 0 {
      FreshHolds(n - 1, row);
      assert Fresh(n)[1..] == Fresh(n - 1);
    }
  }

  // ------------------------------------------------------------ what every reachable state satisfies

  ghost predicate WorkersOk(cfg: Config, ws: seq<W.State>) { forall i | 0 <= i < |ws| :: W.Inv(cfg.worker, ws[i]) }

  ghost predicate Inv(cfg: Config, d: State) {
    && d.next < |d.workers| && WorkersOk(cfg, d.workers)
    && 0 <= d.inFlight == PendingOf(d.workers) && d.inFlight <= cfg.highWater
    && (d.waiting != [] ==> d.inFlight >= cfg.highWater)
  }

  /** While rows are in flight the clamp of `settle` has nothing to do. */
  lemma {:induction false} SettleSubtracts(cfg: Config, d: State, times: nat)
    requires times <= d.inFlight <= cfg.highWater && (d.waiting != [] ==> d.inFlight >= cfg.highWater)
    ensures var d' := Settle(cfg, d, times);
            && d'.inFlight == d.inFlight - times && d'.workers == d.workers && d'.next == d.next
            && d'.admitted == d.admitted
            && (d'.waiting != [] ==> d'.inFlight >= cfg.highWater)
            && d'.woken + d'.waiting == d.woken + d.waiting
  {
    if times > 0 {
      SettleSubtracts(cfg, d, times - 1);
    }
  }

  /** Once the gate is open again everybody waiting is woken, in order; a settle that leaves it shut wakes nobody. */
  lemma {:induction false} SettleWakes(cfg: Config, d: State, times: nat)
    requires 0 < times <= d.inFlight
    ensures var d' := Settle(cfg, d, times);
            && d'.inFlight == d.inFlight - times
            && (if d.inFlight - times < cfg.highWater then d'.woken == d.woken + d.waiting && d'.waiting == []
                else d'.woken == d.woken && d'.waiting == d.waiting)
  {
    if times > 1 {
      SettleWakes(cfg, d, times - 1);
    }
  }

  lemma AdmitInv(cfg: Config, d: State, row: Row)
    requires ValidConfig(cfg) && Inv(cfg, d) && d.inFlight < cfg.highWater
    ensures Inv(cfg, Admit(cfg, d, row))
  {
    var w := d.workers[d.next];
    W.StepInv(cfg.worker, w, W.PushRow(row));
    W.StepConserves(cfg.worker, w, W.PushRow(row), row);
    W.PushConserves(cfg.worker, w, row, row);
    PendingUpdate(d.workers, d.next, W.Push(cfg.worker, w, row));
  }

  /** A settled row leaves the worker as it leaves the count of rows in flight. */
  lemma WorkerMoves(cfg: W.Config, ws: seq<W.State>, i: nat, step: W.Step)
    requires W.ValidConfig(cfg) && i < |ws| && W.Inv(cfg, ws[i]) && !step.PushRow? && W.Enabled(ws[i], step)
    ensures var w' := W.Apply(cfg, ws[i], step);
            && W.Inv(cfg, w') && 0 <= W.Settled(w') - W.Settled(ws[i]) <= PendingOf(ws)
            && PendingOf(ws[i := w']) == PendingOf(ws) - (W.Settled(w') - W.Settled(ws[i]))
  {
    W.StepInv(cfg, ws[i], step);
    W.StepConserves(cfg, ws[i], step, W.Row("", true));
    W.SettledGrows(cfg, ws[i], step);
    PendingUpdate(ws, i, W.Apply(cfg, ws[i], step));
  }

  lemma SettledInv(cfg: Config, d: State, i: nat, w: W.State, times: nat)
    requires ValidConfig(cfg) && Inv(cfg, d) && i < |d.workers| && W.Inv(cfg.worker, w)
    requires times <= d.inFlight && PendingOf(d.workers[i := w]) == PendingOf(d.workers) - times
    ensures var d' := Settle(cfg, d.(workers := d.workers[i := w]), times);
            Inv(cfg, d') && d'.admitted == d.admitted && d'.next == d.next && d'.workers == d.workers[i := w]
  {
    SettleSubtracts(cfg, d.(workers := d.workers[i := w]), times);
  }

  lemma WorkInv(cfg: Config, d: State, i: nat, step: W.Step)
    requires ValidConfig(cfg) && Inv(cfg, d) && i < |d.workers| && !step.PushRow? && W.Enabled(d.workers[i], step)
    ensures Inv(cfg, Work(cfg, d, i, step))
    ensures Work(cfg, d, i, step).admitted == d.admitted && Work(cfg, d, i, step).next == d.next
    ensures Work(cfg, d, i, step).workers == d.workers[i := W.Apply(cfg.worker, d.workers[i], step)]
  {
    var w := W.Apply(cfg.worker, d.workers[i], step);
    WorkerMoves(cfg.worker, d.workers, i, step);
    SettledInv(cfg, d, i, w, W.Settled(w) - W.Settled(d.workers[i]));
  }

  lemma StepInv(cfg: Config, d: State, step: Step)
    requires ValidConfig(cfg) && Inv(cfg, d) && Enabled(d, step)
    ensures Inv(cfg, Apply(cfg, d, step))
  {
    match step {
      case EnqueueRow(row) => if d.inFlight < cfg.highWater { AdmitInv(cfg, d, row); }
      case ResumeProducer(i) =>
        if d.inFlight < cfg.highWater { AdmitInv(cfg, d.(woken := d.woken[..i] + d.woken[i + 1..]), d.woken[i]); }
      case WorkerStep(i, s) => WorkInv(cfg, d, i, s);
    }
  }

  lemma AdmitLocates(cfg: Config, d: State, pushed: Row, row: Row)
    requires ValidConfig(cfg) && Inv(cfg, d)
    ensures var d' := Admit(cfg, d, pushed);
            LocatedIn(d'.workers, row) - LocatedIn(d.workers, row)
            == W.Copies(row, d'.admitted) - W.Copies(row, d.admitted)
  {
    var w := d.workers[d.next];
    W.PushConserves(cfg.worker, w, pushed, row);
    LocatedUpdate(d.workers, d.next, W.Push(cfg.worker, w, pushed), row);
    W.CopiesSnoc(row, d.admitted, pushed);
  }

  lemma StepLocates(cfg: Config, d: State, step: Step, row: Row)
    requires ValidConfig(cfg) && Inv(cfg, d) && Enabled(d, step)
    ensures var d' := Apply(cfg, d, step);
            LocatedIn(d'.workers, row) - LocatedIn(d.workers, row)
            == W.Copies(row, d'.admitted) - W.Copies(row, d.admitted)
  {
    match step {
      case EnqueueRow(r) => AdmitLocates(cfg, d, r, row);
      case ResumeProducer(i) => AdmitLocates(cfg, d.(woken := d.woken[..i] + d.woken[i + 1..]), d.woken[i], row);
      case WorkerStep(i, s) =>
        WorkInv(cfg, d, i, s);
        W.StepConserves(cfg.worker, d.workers[i], s, row);
        LocatedUpdate(d.workers, i, W.Apply(cfg.worker, d.workers[i], s), row);
    }
  }

  // ------------------------------------------------------------ runs

  ghost predicate Run(cfg: Config, states: seq<State>, steps: seq<Step>) {
    && |states| == |steps| + 1 && |states[0].workers| >= 1 && states[0] == Start(|states[0].workers|)
    && forall i | 0 <= i < |steps| :: Enabled(states[i], steps[i]) && states[i + 1] == Apply(cfg, states[i], steps[i])
  }

  /** In flight is what the workers hold, within the high-water mark; a closed gate is the only reason to wait. */
  lemma {:induction false} InvRun(cfg: Config, states: seq<State>, steps: seq<Step>, n: nat)
    requires ValidConfig(cfg) && Run(cfg, states, steps) && n <= |steps|
    ensures Inv(cfg, states[n])
  {
    if n == 0 {
      FreshHolds(|states[0].workers|, W.Row("", true));
    } else {
      InvRun(cfg, states, steps, n - 1);
      StepInv(cfg, states[n - 1], steps[n - 1]);
    }
  }

  lemma {:induction false} LocatedRun(cfg: Config, states: seq<State>, steps: seq<Step>, n: nat, row: Row)
    requires ValidConfig(cfg) && Run(cfg, states, steps) && n <= |steps|
    ensures LocatedIn(states[n].workers, row) == W.Copies(row, states[n].admitted)
  {
    if n == 0 {
      FreshHolds(|states[0].workers|, row);
    } else {
      LocatedRun(cfg, states, steps, n - 1, row);
      InvRun(cfg, states, steps, n - 1);
      StepLocates(cfg, states[n - 1], steps[n - 1], row);
    }
  }

  lemma {:induction false} SettledIsLocated(ws: seq<W.State>, row: Row)
    ensures SettledIn(ws, row) <= LocatedIn(ws, row)
    ensures PendingOf(ws) == 0 ==> SettledIn(ws, row) == LocatedIn(ws, row)
  {
    if ws != [] {
      SettledIsLocated(ws[1..], row);
    }
  }

  /**
   Every admitted row is settled at most once, flushed or dead-lettered, and exactly once when nothing is in flight.
   */
  lemma SettledOnce(cfg: Config, states: seq<State>, steps: seq<Step>, n: nat, row: Row)
    requires ValidConfig(cfg) && Run(cfg, states, steps) && n <= |steps|
    ensures SettledIn(states[n].workers, row) <= W.Copies(row, states[n].admitted)
    ensures states[n].inFlight == 0 ==> SettledIn(states[n].workers, row) == W.Copies(row, states[n].admitted)
  {
    LocatedRun(cfg, states, steps, n, row);
    InvRun(cfg, states, steps, n);
    SettledIsLocated(states[n].workers, row);
  }

  // ------------------------------------------------------------ no producer is forgotten

  /** The copies of a row with a producer or past the gate. */
  function Known(d: State, row: Row): nat {
    W.Copies(row, d.admitted) + W.Copies(row, d.waiting) + W.Copies(row, d.woken)
  }

  lemma {:induction false} SettleKnows(cfg: Config, d: State, times: nat, row: Row)
    ensures Known(Settle(cfg, d, times), row) == Known(d, row)
  {
    if times > 0 {
      SettleKnows(cfg, d, times - 1, row);
      var before := Settle(cfg, d, times - 1);
      W.CopiesAppend(row, before.woken, before.waiting);
    }
  }

  lemma EnqueueKnows(cfg: Config, d: State, given: Row, row: Row)
    requires d.next < |d.workers|
    ensures Known(Enqueue(cfg, d, given), row) == Known(d, row) + if given == row then 1 else 0
  {
    W.CopiesSnoc(row, d.waiting, given);
    W.CopiesSnoc(row, d.admitted, given);
  }

  lemma TakenOut(rows: seq<Row>, i: nat, row: Row)
    requires i < |rows|
    ensures W.Copies(row, rows) == W.Copies(row, rows[..i] + rows[i + 1..]) + if rows[i] == row then 1 else 0
  {
    SplitAt(rows, i);
    W.CopiesAppend(row, rows[..i], rows[i + 1..]);
    W.CopiesAppend(row, rows[..i] + [rows[i]], rows[i + 1..]);
    W.CopiesSnoc(row, rows[..i], rows[i]);
  }

  lemma StepKnows(cfg: Config, d: State, step: Step, row: Row)
    requires Enabled(d, step)
    ensures Known(Apply(cfg, d, step), row) == Known(d, row) + if step == EnqueueRow(row) then 1 else 0
  {
    match step {
      case EnqueueRow(given) => EnqueueKnows(cfg, d, given, row);
      case ResumeProducer(i) =>
        TakenOut(d.woken, i, row);
        EnqueueKnows(cfg, d.(woken := d.woken[..i] + d.woken[i + 1..]), d.woken[i], row);
      case WorkerStep(i, s) =>
        var w' := W.Apply(cfg.worker, d.workers[i], s);
        var n := W.Settled(w') - W.Settled(d.workers[i]);
        SettleKnows(cfg, d.(workers := d.workers[i := w']), if n >= 0 then n else 0, row);
    }
  }

  /** The rows producers have enqueued, in order. */
  function EnqueuedBy(steps: seq<Step>): seq<Row> {
    if steps == [] then []
    else
      var last := steps[|steps| - 1];
      EnqueuedBy(steps[..|steps| - 1]) + if last.EnqueueRow? then [last.row] else []
  }

  /** In every run each enqueued row is admitted, waiting or woken, as often as it was enqueued. */
  lemma {:induction false} EnqueuedRun(cfg: Config, states: seq<State>, steps: seq<Step>, n: nat, row: Row)
    requires ValidConfig(cfg) && Run(cfg, states, steps) && n <= |steps|
    ensures W.Copies(row, EnqueuedBy(steps[..n]))
            == W.Copies(row, states[n].admitted) + W.Copies(row, states[n].waiting) + W.Copies(row, states[n].woken)
  {
    if n > 0 {
      EnqueuedRun(cfg, states, steps, n - 1, row);
      StepKnows(cfg, states[n - 1], steps[n - 1], row);
      assert steps[..n][..n - 1] == steps[..n - 1];
      if steps[n - 1].EnqueueRow? {
        W.CopiesSnoc(row, EnqueuedBy(steps[..n - 1]), steps[n - 1].row);
      } else {
        assert EnqueuedBy(steps[..n - 1]) + [] == EnqueuedBy(steps[..n - 1]);
      }
    }
  }

  /** With nothing in flight and nobody waiting or woken every enqueued row is settled exactly once. */
  lemma EnqueuedSettledOnce(cfg: Config, states: seq<State>, steps: seq<Step>, n: nat, row: Row)
    requires ValidConfig(cfg) && Run(cfg, states, steps) && n <= |steps|
    ensures SettledIn(states[n].workers, row) <= W.Copies(row, EnqueuedBy(steps[..n]))
    ensures states[n].inFlight == 0 && states[n].waiting == [] && states[n].woken == [] ==>
              SettledIn(states[n].workers, row) == W.Copies(row, EnqueuedBy(steps[..n]))
  {
    EnqueuedRun(cfg, states, steps, n, row);
    SettledOnce(cfg, states, steps, n, row);
  }

  /** In no run does the clamp at zero change anything: each of the settles of a step finds a row in flight. */
  lemma ClampNeverFires(cfg: Config, states: seq<State>, steps: seq<Step>, n: nat, k: nat)
    requires ValidConfig(cfg) && Run(cfg, states, steps) && n < |steps| && steps[n].WorkerStep?
    requires var w := states[n].workers[steps[n].w];
             k < W.Settled(W.Apply(cfg.worker, w, steps[n].step)) - W.Settled(w)
    ensures var w' := W.Apply(cfg.worker, states[n].workers[steps[n].w], steps[n].step);
            Settle(cfg, states[n].(workers := states[n].workers[steps[n].w := w']), k).inFlight >= 1
  {
    var d, i, step := states[n], steps[n].w, steps[n].step;
    var w' := W.Apply(cfg.worker, d.workers[i], step);
    InvRun(cfg, states, steps, n);
    WorkerMoves(cfg.worker, d.workers, i, step);
    SettleSubtracts(cfg, d.(workers := d.workers[i := w']), k);
  }

  // ------------------------------------------------------------ round robin

  /** Worker i has been handed its even share of the admitted rows, and the next row goes on in order. */
  ghost predicate Spread(d: State) {
    && |d.workers| >= 1 && d.next == |d.admitted| % |d.workers|
    && forall i | 0 <= i < |d.workers| :: |d.workers[i].accepted| == EvenShare(|d.admitted|, |d.workers|, i)
  }

  lemma OneMoreShared(total: nat, n: nat, i: nat)
    requires i < n
    ensures EvenShare(total + 1, n, i) == EvenShare(total, n, i) + if i == total % n then 1 else 0
    ensures (total + 1) % n == (total % n + 1) % n
  {
    var q, r := total / n, total % n;
    assert total == q * n + r;
    if r + 1 < n {
      DivMod(total + 1, n, q, r + 1);
      DivMod(r + 1, n, 0, r + 1);
    } else {
      assert (q + 1) * n == q * n + n;
      DivMod(total + 1, n, q + 1, 0);
      DivMod(r + 1, n, 1, 0);
    }
  }

  lemma Multiples(d: int, n: int)
    requires n >= 0
    ensures d >= 1 ==> d * n >= n
    ensures d <= -1 ==> d * n <= -n
  {
    assert (d - 1) * n == d * n - n && (-1 - d) * n == -n - d * n;
  }

  lemma DivMod(x: nat, n: nat, q: nat, r: nat)
    requires r < n && x == q * n + r
    ensures x / n == q && x % n == r
  {
    var d := x / n - q;
    assert x == x / n * n + x % n;
    assert (x / n) * n == q * n + d * n;
    Multiples(d, n);
  }

  lemma AdmitSpreads(cfg: Config, d: State, row: Row)
    requires ValidConfig(cfg) && Inv(cfg, d) && Spread(d)
    ensures Spread(Admit(cfg, d, row))
  {
    var w := d.workers[d.next];
    W.StepConserves(cfg.worker, w, W.PushRow(row), row);
    forall i | 0 <= i < |d.workers|
      ensures |Admit(cfg, d, row).workers[i].accepted| == EvenShare(|d.admitted| + 1, |d.workers|, i)
    {
      OneMoreShared(|d.admitted|, |d.workers|, i);
    }
    OneMoreShared(|d.admitted|, |d.workers|, 0);
  }

  lemma StepSpreads(cfg: Config, d: State, step: Step)
    requires ValidConfig(cfg) && Inv(cfg, d) && Enabled(d, step) && Spread(d)
    ensures Spread(Apply(cfg, d, step))
  {
    match step {
      case EnqueueRow(row) => AdmitSpreads(cfg, d, row);
      case ResumeProducer(i) => AdmitSpreads(cfg, d.(woken := d.woken[..i] + d.woken[i + 1..]), d.woken[i]);
      case WorkerStep(i, s) =>
        WorkInv(cfg, d, i, s);
        W.StepConserves(cfg.worker, d.workers[i], s, W.Row("", true));
    }
  }

  /**
   Whatever the workers do meanwhile, at every moment of a run no two have been handed numbers of rows that differ by
   more than one.
   */
  lemma {:induction false} RowsSpreadEvenly(cfg: Config, states: seq<State>, steps: seq<Step>, n: nat)
    requires ValidConfig(cfg) && Run(cfg, states, steps) && n <= |steps|
    ensures Spread(states[n])
    ensures forall i, j | 0 <= i < |states[n].workers| && 0 <= j < |states[n].workers| ::
              |states[n].workers[i].accepted| <= |states[n].workers[j].accepted| + 1
  {
    if n > 0 {
      RowsSpreadEvenly(cfg, states, steps, n - 1);
      InvRun(cfg, states, steps, n - 1);
      StepSpreads(cfg, states[n - 1], steps[n - 1]);
    }
  }

  // ------------------------------------------------------------ a drain

  function TotalOf(f: W.State -> nat, ws: seq<W.State>): nat {
    if ws == [] then 0 else f(ws[0]) + TotalOf(f, ws[1..])
  }

  lemma {:induction false} TotalUpdate(f: W.State -> nat, ws: seq<W.State>, i: nat, w: W.State)
    requires i < |ws|
    ensures TotalOf(f, ws[i := w]) == TotalOf(f, ws) - f(ws[i]) + f(w)
  {
    if i == 0 {
      assert ws[i := w][1..] == ws[1..];
    } else {
      assert ws[i := w][1..] == ws[1..][i - 1 := w];
      TotalUpdate(f, ws[1..], i - 1, w);
    }
  }

  function WorkOf(cfg: Config): W.State -> nat { (w: W.State) => W.Work(cfg.worker, w) }

  function RankOf(): W.State -> nat { (w: W.State) => W.Rank(w.phase) }

  /** Rows buffered in a worker that has no loop running. */
  function LeftOf(): W.State -> nat { (w: W.State) => if w.phase.NoLoop? then |w.buffer| else 0 }

  /** A producer's call, the wake-up of a woken producer, or a worker's idle timer; one that is not there is ignored. */
  datatype Call = Enqueues(row: Row) | Wakes(i: nat) | Fires(w: nat)

  function CallsAt(calls: seq<seq<Call>>, round: nat): seq<Call> { if round < |calls| then calls[round] else [] }

  /** What the loop of a worker does next, given the pipeline's answers by round and slot. */
  function LoopStep(w: W.State, round: nat, answer: (nat, nat) -> W.Outcome): W.Step {
    match w.phase
    case DeadLettering(_, _) => W.Malformed
    case Executing(piped) => W.Replies(seq(|piped|, i requires 0 <= i < |piped| => answer(round, i)))
    case Settling(_, _) => W.DeadLettered
    case _ => W.LoopTest
  }

  /** The rows a list of calls enqueues, and those of the first rounds. */
  function EnqueuedIn(calls: seq<Call>): seq<Row> {
    if calls == [] then []
    else
      var last := calls[|calls| - 1];
      EnqueuedIn(calls[..|calls| - 1]) + if last.Enqueues? then [last.row] else []
  }

  function EnqueuedOver(calls: seq<seq<Call>>, rounds: nat): seq<Row> {
    if rounds == 0 then [] else EnqueuedOver(calls, rounds - 1) + EnqueuedIn(CallsAt(calls, rounds - 1))
  }

  function RoundsLeft(calls: seq<seq<Call>>, round: nat): nat { if round < |calls| then |calls| - round else 0 }

  /** Producers' rows have grown by just these. */
  ghost predicate KnownPlus(d: State, d': State, more: seq<Row>) {
    forall row :: Known(d', row) == Known(d, row) + W.Copies(row, more)
  }

  lemma KnownStep(cfg: Config, before: State, d: State, step: Step, more: seq<Row>)
    requires Enabled(d, step) && KnownPlus(before, d, more)
    ensures KnownPlus(before, Apply(cfg, d, step), if step.EnqueueRow? then more + [step.row] else more)
  {
    var more' := if step.EnqueueRow? then more + [step.row] else more;
    forall row ensures Known(Apply(cfg, d, step), row) == Known(before, row) + W.Copies(row, more') {
      StepKnows(cfg, d, step, row);
      if step.EnqueueRow? { W.CopiesSnoc(row, more, step.row); }
    }
  }

  lemma KnownOneMore(d: State, more: seq<Row>, calls: seq<Call>, k: nat, d': State)
    requires k < |calls| && KnownPlus(d, d', if calls[k].Enqueues? then more + EnqueuedIn(calls[..k]) + [calls[k].row]
                                              else more + EnqueuedIn(calls[..k]))
    ensures KnownPlus(d, d', more + EnqueuedIn(calls[..k + 1]))
  {
    assert calls[..k + 1][..k] == calls[..k];
    if calls[k].Enqueues? {
      assert more + EnqueuedIn(calls[..k]) + [calls[k].row] == more + (EnqueuedIn(calls[..k]) + [calls[k].row]);
    } else {
      assert EnqueuedIn(calls[..k]) + [] == EnqueuedIn(calls[..k]);
    }
  }

  ghost predicate Accounted(d: State) { forall row :: LocatedIn(d.workers, row) == W.Copies(row, d.admitted) }

  /** While a dispatcher drains: no more rows sit without a loop than have been admitted since. */
  ghost predicate Draining(cfg: Config, before: State, d: State) {
    && Inv(cfg, d) && before.admitted <= d.admitted && |d.workers| == |before.workers|
    && TotalOf(LeftOf(), d.workers) <= |d.admitted| - |before.admitted|
    && (Accounted(before) ==> Accounted(d))
  }

  lemma AccountedStep(cfg: Config, d: State, step: Step)
    requires ValidConfig(cfg) && Inv(cfg, d) && Enabled(d, step) && Accounted(d)
    ensures Accounted(Apply(cfg, d, step))
  {
    forall row ensures LocatedIn(Apply(cfg, d, step).workers, row) == W.Copies(row, Apply(cfg, d, step).admitted) {
      StepLocates(cfg, d, step, row);
    }
  }

  lemma AdmitLeaves(cfg: Config, d: State, row: Row)
    requires ValidConfig(cfg) && Inv(cfg, d)
    ensures TotalOf(LeftOf(), Admit(cfg, d, row).workers) <= TotalOf(LeftOf(), d.workers) + 1
  {
    TotalUpdate(LeftOf(), d.workers, d.next, W.Push(cfg.worker, d.workers[d.next], row));
  }

  lemma ProducerStepDrains(cfg: Config, before: State, d: State, step: Step)
    requires ValidConfig(cfg) && Draining(cfg, before, d) && Enabled(d, step) && !step.WorkerStep?
    ensures Draining(cfg, before, Apply(cfg, d, step))
  {
    StepInv(cfg, d, step);
    if Accounted(d) { AccountedStep(cfg, d, step); }
    match step {
      case EnqueueRow(row) => AdmitLeaves(cfg, d, row);
      case ResumeProducer(i) => AdmitLeaves(cfg, d.(woken := d.woken[..i] + d.woken[i + 1..]), d.woken[i]);
    }
  }

  lemma TimerStepDrains(cfg: Config, before: State, d: State, i: nat)
    requires ValidConfig(cfg) && Draining(cfg, before, d) && i < |d.workers| && d.workers[i].timer
    ensures Draining(cfg, before, Work(cfg, d, i, W.IdleFire))
  {
    WorkInv(cfg, d, i, W.IdleFire);
    TotalUpdate(LeftOf(), d.workers, i, W.IdleFires(cfg.worker, d.workers[i]));
    if Accounted(d) { AccountedStep(cfg, d, WorkerStep(i, W.IdleFire)); }
  }

  lemma LoopStepDrains(cfg: Config, before: State, d: State, i: nat, step: W.Step)
    requires ValidConfig(cfg) && Draining(cfg, before, d) && i < |d.workers| && !d.workers[i].phase.NoLoop?
    requires W.Enabled(d.workers[i], step) && W.IsLoopStep(step)
    ensures var d' := Work(cfg, d, i, step);
            && Draining(cfg, before, d')
            && (TotalOf(WorkOf(cfg), d'.workers) < TotalOf(WorkOf(cfg), d.workers)
                || (TotalOf(WorkOf(cfg), d'.workers) == TotalOf(WorkOf(cfg), d.workers)
                    && TotalOf(RankOf(), d'.workers) < TotalOf(RankOf(), d.workers)))
  {
    var w := W.Apply(cfg.worker, d.workers[i], step);
    WorkInv(cfg, d, i, step);
    W.Stepped(cfg.worker, d.workers[i], step);
    W.LoopProgress(cfg.worker, d.workers[i], step);
    TotalUpdate(WorkOf(cfg), d.workers, i, w);
    TotalUpdate(RankOf(), d.workers, i, w);
    TotalUpdate(LeftOf(), d.workers, i, w);
    if Accounted(d) { AccountedStep(cfg, d, WorkerStep(i, step)); }
  }

  lemma LoopStepEnabled(cfg: Config, w: W.State, round: nat, answer: (nat, nat) -> W.Outcome)
    requires W.Inv(cfg.worker, w) && !w.phase.NoLoop?
    ensures var step := LoopStep(w, round, answer); W.Enabled(w, step) && W.IsLoopStep(step)
  {
  }

  /** With no loop left running, what is in flight is what sits in buffers. */
  lemma {:induction false} NothingRuns(ws: seq<W.State>)
    requires forall i | 0 <= i < |ws| :: ws[i].phase.NoLoop?
    ensures PendingOf(ws) == TotalOf(LeftOf(), ws)
  {
    if ws != [] {
      NothingRuns(ws[1..]);
    }
  }

  lemma {:induction false} NothingLeft(ws: seq<W.State>)
    requires forall i | 0 <= i < |ws| && ws[i].phase.NoLoop? :: ws[i].buffer == []
    ensures TotalOf(LeftOf(), ws) == 0
  {
    if ws != [] {
      NothingLeft(ws[1..]);
    }
  }

  /** The drains of the first n workers are requested. */
  ghost predicate Requested(cfg: Config, before: State, d: State, n: nat) {
    && Inv(cfg, d) && d.admitted == before.admitted && |d.workers| == |before.workers|
    && (forall i | 0 <= i < |d.workers| && i < n && d.workers[i].phase.NoLoop? :: d.workers[i].buffer == [])
    && (Accounted(before) ==> Accounted(d))
  }

  lemma RequestOne(cfg: Config, before: State, d: State, n: nat)
    requires ValidConfig(cfg) && Requested(cfg, before, d, n) && n < |d.workers|
    ensures Requested(cfg, before, Work(cfg, d, n, W.DrainCall), n + 1)
  {
    WorkInv(cfg, d, n, W.DrainCall);
    W.Stepped(cfg.worker, d.workers[n], W.DrainCall);
    if Accounted(d) { AccountedStep(cfg, d, WorkerStep(n, W.DrainCall)); }
  }

  lemma AllRequested(cfg: Config, before: State, d: State)
    requires Requested(cfg, before, d, |d.workers|)
    ensures Draining(cfg, before, d)
  {
    NothingLeft(d.workers);
  }

  lemma DrainEnds(cfg: Config, before: State, d: State)
    requires Draining(cfg, before, d) && forall i | 0 <= i < |d.workers| :: d.workers[i].phase.NoLoop?
    ensures d.inFlight <= |d.admitted| - |before.admitted|
    ensures d.admitted == before.admitted ==> d.inFlight == 0
    ensures Accounted(before) && d.inFlight == 0 ==>
              forall row :: SettledIn(d.workers, row) == W.Copies(row, d.admitted)
  {
    NothingRuns(d.workers);
    if Accounted(before) && d.inFlight == 0 {
      forall row ensures SettledIn(d.workers, row) == W.Copies(row, d.admitted) {
        SettledIsLocated(d.workers, row);
        assert LocatedIn(d.workers, row) == W.Copies(row, d.admitted);
      }
    }
  }

  /** Every row producers had before, and just these on top, is settled exactly once. */
  ghost predicate SettledPlus(d: State, d': State, more: seq<Row>) {
    forall row :: SettledIn(d'.workers, row) == Known(d, row) + W.Copies(row, more)
  }

  lemma NobodyForgotten(d: State, d': State, more: seq<Row>)
    requires KnownPlus(d, d', more)
    ensures (d'.waiting == [] && d'.woken == []
             && forall row :: SettledIn(d'.workers, row) == W.Copies(row, d'.admitted)) ==> SettledPlus(d, d', more)
  {
    if d'.waiting == [] && d'.woken == [] && forall row :: SettledIn(d'.workers, row) == W.Copies(row, d'.admitted) {
      forall row ensures SettledIn(d'.workers, row) == Known(d, row) + W.Copies(row, more) {
        assert Known(d', row) == Known(d, row) + W.Copies(row, more);
      }
    }
  }

  // ------------------------------------------------------------ the dispatcher object

  class Gate {
    const cfg: Config
    var inFlight: int
    var waiting: seq<Row>
    var woken: seq<Row>
    var next: nat
    var workers: seq<W.State>
    var admitted: seq<Row>

    function View(): State
      reads this
    {
      State(inFlight, waiting, woken, next, workers, admitted)
    }

    constructor (cfg: Config, size: nat)
      requires ValidConfig(cfg) && size >= 1
      ensures this.cfg == cfg && View() == Start(size) && Inv(cfg, View())
    {
      this.cfg := cfg;
      inFlight, waiting, woken, next, workers, admitted := 0, [], [], 0, Fresh(size), [];
      FreshHolds(size, W.Row("", true));
    }

    /** Release waiters in arrival order for as long as the gate is open. */
    method OnSettle()
      modifies this`inFlight, this`waiting, this`woken
      ensures View() == SettleOne(cfg, old(View()))
    {
      inFlight := inFlight - 1;
      if inFlight < 0 { inFlight := 0; }
      while waiting != [] && inFlight < cfg.highWater
        invariant inFlight == if old(inFlight) - 1 < 0 then 0 else old(inFlight) - 1
        invariant woken + waiting == old(woken) + old(waiting)
        invariant inFlight >= cfg.highWater ==> woken == old(woken) && waiting == old(waiting)
        decreases |waiting|
      {
        woken, waiting := woken + [waiting[0]], waiting[1..];
      }
      assert woken + [] == woken;
    }

    method PickWorker() returns (i: nat)
      requires next < |workers|
      modifies this`next
      ensures i == old(next) && next == (i + 1) % |workers|
    {
      i := next;
      next := (next + 1) % |workers|;
    }

    method TryEnqueue(row: Row)
      requires next < |workers|
      modifies this
      ensures View() == Enqueue(cfg, old(View()), row)
    {
      if inFlight >= cfg.highWater {
        waiting := waiting + [row];
      } else {
        inFlight := inFlight + 1;
        var i := PickWorker();
        workers, admitted := workers[i := W.Push(cfg.worker, workers[i], row)], admitted + [row];
      }
    }

    method OnWoken(i: nat)
      requires next < |workers| && i < |woken|
      modifies this
      ensures View() == Resume(cfg, old(View()), i)
    {
      var row := woken[i];
      woken := woken[..i] + woken[i + 1..];
      TryEnqueue(row);
    }

    method RunWorker(i: nat, step: W.Step)
      requires i < |workers| && W.Enabled(workers[i], step)
      modifies this
      ensures View() == Work(cfg, old(View()), i, step)
    {
      var w' := W.Apply(cfg.worker, workers[i], step);
      var n := W.Settled(w') - W.Settled(workers[i]);
      workers := workers[i := w'];
      ghost var d := View();
      var k := 0;
      while k < n
        invariant k == 0 || k <= n
        invariant View() == Settle(cfg, d, k)
      {
        OnSettle();
        k := k + 1;
      }
    }

    /** Worker i runs its loop, or nobody does. */
    ghost predicate Found(found: bool, i: nat)
      reads this
    {
      if found then i < |workers| && !workers[i].phase.NoLoop?
      else forall k | 0 <= k < |workers| :: workers[k].phase.NoLoop?
    }

    /** A worker whose loop is running, the wanted one if it is. */
    method PickRunning(wanted: nat) returns (found: bool, i: nat)
      requires |workers| >= 1
      ensures Found(found, i)
      ensures wanted < |workers| && !workers[wanted].phase.NoLoop? ==> found && i == wanted
    {
      if wanted < |workers| && !workers[wanted].phase.NoLoop? { return true, wanted; }
      found, i := false, 0;
      while i < |workers|
        invariant i <= |workers| && forall k | 0 <= k < i :: workers[k].phase.NoLoop?
      {
        if !workers[i].phase.NoLoop? { return true, i; }
        i := i + 1;
      }
    }

    method RequestDrains()
      requires ValidConfig(cfg) && Inv(cfg, View())
      modifies this
      ensures Draining(cfg, old(View()), View()) && KnownPlus(old(View()), View(), [])
    {
      ghost var before := View();
      var n := 0;
      while n < |workers|
        invariant n <= |workers| && Requested(cfg, before, View(), n) && KnownPlus(before, View(), [])
        decreases |before.workers| - n
      {
        RequestOne(cfg, before, View(), n);
        KnownStep(cfg, before, View(), WorkerStep(n, W.DrainCall), []);
        RunWorker(n, W.DrainCall);
        n := n + 1;
      }
      AllRequested(cfg, before, View());
    }

    /** One producer's call, wake-up or timer. */
    method TakeCall(call: Call, ghost before: State, ghost more: seq<Row>)
      requires ValidConfig(cfg) && Draining(cfg, before, View()) && KnownPlus(before, View(), more)
      modifies this
      ensures Draining(cfg, before, View())
      ensures KnownPlus(before, View(), if call.Enqueues? then more + [call.row] else more)
    {
      match call {
        case Enqueues(row) =>
          ProducerStepDrains(cfg, before, View(), EnqueueRow(row));
          KnownStep(cfg, before, View(), EnqueueRow(row), more);
          TryEnqueue(row);
        case Wakes(i) =>
          if i < |woken| {
            ProducerStepDrains(cfg, before, View(), ResumeProducer(i));
            KnownStep(cfg, before, View(), ResumeProducer(i), more);
            OnWoken(i);
          }
        case Fires(w) =>
          if w < |workers| && workers[w].timer {
            TimerStepDrains(cfg, before, View(), w);
            KnownStep(cfg, before, View(), WorkerStep(w, W.IdleFire), more);
            RunWorker(w, W.IdleFire);
          }
      }
    }

    method TakeCalls(calls: seq<Call>, ghost before: State, ghost more: seq<Row>)
      requires ValidConfig(cfg) && Draining(cfg, before, View()) && KnownPlus(before, View(), more)
      modifies this
      ensures Draining(cfg, before, View()) && KnownPlus(before, View(), more + EnqueuedIn(calls))
      ensures calls == [] ==> View() == old(View())
    {
      assert more + [] == more;
      for k := 0 to |calls|
        invariant Draining(cfg, before, View()) && (k == 0 ==> View() == old(View()))
        invariant KnownPlus(before, View(), more + EnqueuedIn(calls[..k]))
      {
        TakeCall(calls[k], before, more + EnqueuedIn(calls[..k]));
        KnownOneMore(before, more, calls, k, View());
      }
      assert calls[..|calls|] == calls;
    }

    /**
     All workers drain side by side, in any interleaving, whatever the pipelines answer and producers and timers do
     meanwhile. The drain ends, and leaves in flight at most as many rows as were admitted since it began; if none were,
     every admitted row is settled exactly once and nobody waits. No producer's row is lost: with nothing in flight and
     nobody waiting or woken, every row enqueued before or meanwhile is settled exactly once.
     */
    method Drain(pick: nat -> nat, answer: (nat, nat) -> W.Outcome, calls: seq<seq<Call>>) returns (rounds: nat)
      requires ValidConfig(cfg) && Inv(cfg, View())
      modifies this
      ensures Inv(cfg, View()) && forall i | 0 <= i < |workers| :: workers[i].phase.NoLoop?
      ensures old(admitted) <= admitted && inFlight <= |admitted| - |old(admitted)|
      ensures admitted == old(admitted) ==> inFlight == 0 && waiting == []
      ensures old(Accounted(View())) && inFlight == 0 ==>
                forall row :: SettledIn(workers, row) == W.Copies(row, admitted)
      ensures KnownPlus(old(View()), View(), EnqueuedOver(calls, rounds))
      ensures old(Accounted(View())) && inFlight == 0 && waiting == [] && woken == [] ==>
                SettledPlus(old(View()), View(), EnqueuedOver(calls, rounds))
    {
      ghost var before := View();
      rounds := RunLoops(pick, answer, calls);
      DrainEnds(cfg, before, View());
      NobodyForgotten(before, View(), EnqueuedOver(calls, rounds));
    }

    /** What a drain keeps: how far it is, and every producer's row accounted for. */
    ghost predicate Kept(before: State, calls: seq<seq<Call>>, rounds: nat)
      reads this
    {
      Draining(cfg, before, View()) && KnownPlus(before, View(), EnqueuedOver(calls, rounds))
    }

    method RunLoops(pick: nat -> nat, answer: (nat, nat) -> W.Outcome, calls: seq<seq<Call>>) returns (rounds: nat)
      requires ValidConfig(cfg) && Inv(cfg, View())
      modifies this
      ensures Draining(cfg, old(View()), View()) && KnownPlus(old(View()), View(), EnqueuedOver(calls, rounds))
      ensures forall i | 0 <= i < |workers| :: workers[i].phase.NoLoop?
    {
      ghost var before := View();
      var running, i: nat := StartLoops(pick(0), calls);
      rounds := 0;
      while running
        invariant Kept(before, calls, rounds) && Found(running, i)
        decreases RoundsLeft(calls, rounds), TotalOf(WorkOf(cfg), workers), TotalOf(RankOf(), workers), running
      {
        Round(i, rounds, answer, calls, before);
        rounds := rounds + 1;
        running, i := PickRunning(pick(rounds));
      }
    }

    method StartLoops(wanted: nat, ghost calls: seq<seq<Call>>) returns (found: bool, i: nat)
      requires ValidConfig(cfg) && Inv(cfg, View())
      modifies this
      ensures Kept(old(View()), calls, 0) && Found(found, i)
    {
      RequestDrains();
      found, i := PickRunning(wanted);
    }

    /** One step of a worker's loop, then the producers' calls that come before the next. */
    method Round(i: nat, round: nat, answer: (nat, nat) -> W.Outcome, calls: seq<seq<Call>>, ghost before: State)
      requires ValidConfig(cfg) && Kept(before, calls, round) && i < |workers| && !workers[i].phase.NoLoop?
      modifies this
      ensures Kept(before, calls, round + 1)
      ensures RoundsLeft(calls, round + 1) < RoundsLeft(calls, round) || round >= |calls|
      ensures RoundsLeft(calls, round + 1) <= RoundsLeft(calls, round)
      ensures round >= |calls| ==>
                TotalOf(WorkOf(cfg), workers) < old(TotalOf(WorkOf(cfg), workers))
                || (TotalOf(WorkOf(cfg), workers) == old(TotalOf(WorkOf(cfg), workers))
                    && TotalOf(RankOf(), workers) < old(TotalOf(RankOf(), workers)))
    {
      var step := LoopStep(workers[i], round, answer);
      LoopStepEnabled(cfg, workers[i], round, answer);
      LoopStepDrains(cfg, before, View(), i, step);
      KnownStep(cfg, before, View(), WorkerStep(i, step), EnqueuedOver(calls, round));
      RunWorker(i, step);
      TakeCalls(CallsAt(calls, round), before, EnqueuedOver(calls, round));
    }
  }
}
