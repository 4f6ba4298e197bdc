/**
 One bulk-load worker: a buffer, a single flush loop, an idle timer, retries and dead letters.
 Each operation runs from one await to the next, so pushes and the timer may fall between any
 two of the loop's operations.
 */
module BulkWorker {

  /** `writable` says that the row yields at least one HASH field. */
  datatype Row = Row(id: string, writable: bool)

  datatype BufferedRow = BufferedRow(row: Row, attempts: nat)

  /** What the pipeline's replies amount to for one row. */
  datatype Outcome = Ok | Permanent | Transient

  datatype Reply = Reply(entry: BufferedRow, outcome: Outcome)

  /** Where the flush loop is suspended; `Between` a finished batch and the loop's next test. */
  datatype Phase =
    | NoLoop
    | DeadLettering(malformed: seq<BufferedRow>, piped: seq<BufferedRow>)
    | Executing(piped: seq<BufferedRow>)
    | Settling(entry: BufferedRow, replies: seq<Reply>)
    | Between

  datatype Config = Config(batchSize: nat, idleFlushMs: int, maxRetries: int)

  datatype State = State(
    buffer: seq<BufferedRow>, phase: Phase, promise: bool, timer: bool,
    accepted: seq<Row>, sent: seq<Row>, flushed: seq<Row>, dead: seq<Row>)

  function Start(): State { State([], NoLoop, false, false, [], [], [], []) }

  // ------------------------------------------------------------ operations

  function Writable(batch: seq<BufferedRow>, writable: bool): seq<BufferedRow> {
    if batch == [] then []
    else if batch[0].row.writable == writable then [batch[0]] + Writable(batch[1..], writable)
    else Writable(batch[1..], writable)
  }

  lemma {:induction false} WritableSnoc(batch: seq<BufferedRow>, b: BufferedRow, writable: bool)
    ensures Writable(batch + [b], writable)
            == Writable(batch, writable) + if b.row.writable == writable then [b] else []
  {
    if batch == [] {
      assert batch + [b] == [b];
    } else {
      assert (batch + [b])[1..] == batch[1..] + [b];
      WritableSnoc(batch[1..], b, writable);
    }
  }

  function Size(cfg: Config, st: State): nat { if cfg.batchSize <= |st.buffer| then cfg.batchSize else |st.buffer| }

  /** Cut the next batch off the buffer; malformed rows are dead-lettered first, without a pipeline slot. */
  function TakeBatch(cfg: Config, st: State): State {
    var batch := st.buffer[..Size(cfg, st)];
    var malformed, piped := Writable(batch, false), Writable(batch, true);
    st.(buffer := st.buffer[Size(cfg, st)..],
        phase := if malformed == [] then Executing(piped) else DeadLettering(malformed, piped))
  }

  /** The loop's test, one await after a batch. */
  function Recheck(cfg: Config, st: State): State {
    if st.buffer == [] then st.(phase := NoLoop, promise := false) else TakeBatch(cfg, st)
  }

  /**
   With an empty buffer the loop would be over, and its promise cleared, before the promise is
   assigned: the promise would then stay set with no loop behind it.
   */
  function ScheduleFlush(cfg: Config, st: State): State {
    if st.promise then st
    else if st.buffer == [] then st.(promise := true)
    else TakeBatch(cfg, st).(promise := true)
  }

  function Push(cfg: Config, st: State, row: Row): State {
    var st1 := st.(buffer := st.buffer + [BufferedRow(row, 0)], accepted := st.accepted + [row]);
    if |st1.buffer| >= cfg.batchSize then ScheduleFlush(cfg, st1.(timer := false))
    else st1.(timer := cfg.idleFlushMs > 0)
  }

  function IdleFires(cfg: Config, st: State): State {
    var st1 := st.(timer := false);
    if st.buffer == [] then st1 else ScheduleFlush(cfg, st1)
  }

  function DrainRequested(cfg: Config, st: State): State { IdleFires(cfg, st) }

  /** One malformed row has been dead-lettered. */
  function MalformedSettled(cfg: Config, st: State): State
    requires st.phase.DeadLettering? && st.phase.malformed != []
  {
    var st1 := st.(dead := st.dead + [st.phase.malformed[0].row]);
    if |st.phase.malformed| > 1 then st1.(phase := st.phase.(malformed := st.phase.malformed[1..]))
    else if st.phase.piped != [] then st1.(phase := Executing(st.phase.piped))
    else st1.(phase := Between)
  }

  predicate GivesUp(cfg: Config, r: Reply) {
    r.outcome == Permanent || (r.outcome == Transient && r.entry.attempts + 1 >= cfg.maxRetries)
  }

  /** Walk the replies up to the next dead letter. */
  function Walk(cfg: Config, st: State, replies: seq<Reply>): State
    decreases |replies|
  {
    if replies == [] then st.(phase := Between)
    else
      var r := replies[0];
      if r.outcome == Ok then Walk(cfg, st.(flushed := st.flushed + [r.entry.row]), replies[1..])
      else if GivesUp(cfg, r) then st.(phase := Settling(r.entry, replies[1..]))
      else Walk(cfg, st.(buffer := [BufferedRow(r.entry.row, r.entry.attempts + 1)] + st.buffer), replies[1..])
  }

  function Pair(piped: seq<BufferedRow>, outcomes: seq<Outcome>): seq<Reply>
    requires |piped| == |outcomes|
  {
    seq(|piped|, i requires 0 <= i < |piped| => Reply(piped[i], outcomes[i]))
  }

  function RowsOf(bs: seq<BufferedRow>): seq<Row> { seq(|bs|, i requires 0 <= i < |bs| => bs[i].row) }

  /** The pipeline has answered: one HSET went out for each piped row. */
  function Replied(cfg: Config, st: State, outcomes: seq<Outcome>): State
    requires st.phase.Executing? && |outcomes| == |st.phase.piped|
  {
    Walk(cfg, st.(sent := st.sent + RowsOf(st.phase.piped)), Pair(st.phase.piped, outcomes))
  }

  /** The dead letter of a failed row is out. */
  function DeadSettled(cfg: Config, st: State): State
    requires st.phase.Settling?
  {
    Walk(cfg, st.(dead := st.dead + [st.phase.entry.row]), st.phase.replies)
  }

  datatype Step =
    | PushRow(row: Row)
    | IdleFire
    | DrainCall
    | Malformed
    | Replies(outcomes: seq<Outcome>)
    | DeadLettered
    | LoopTest

  predicate Enabled(st: State, step: Step) {
    match step
    case PushRow(_) => true
    case IdleFire => st.timer
    case DrainCall => true
    case Malformed => st.phase.DeadLettering? && st.phase.malformed != []
    case Replies(outcomes) => st.phase.Executing? && |outcomes| == |st.phase.piped|
    case DeadLettered => st.phase.Settling?
    case LoopTest => st.phase.Between?
  }

  function Apply(cfg: Config, st: State, step: Step): State
    requires Enabled(st, step)
  {
    match step
    case PushRow(row) => Push(cfg, st, row)
    case IdleFire => IdleFires(cfg, st)
    case DrainCall => DrainRequested(cfg, st)
    case Malformed => MalformedSettled(cfg, st)
    case Replies(outcomes) => Replied(cfg, st, outcomes)
    case DeadLettered => DeadSettled(cfg, st)
    case LoopTest => Recheck(cfg, st)
  }

  // ------------------------------------------------------------ conservation

  /** How often a row occurs in a list. */
  function Copies(row: Row, rows: seq<Row>): nat {
    if rows == [] then 0 else (if rows[0] == row then 1 else 0) + Copies(row, rows[1..])
  }

  function Buffered(row: Row, bs: seq<BufferedRow>): nat {
    if bs == [] then 0 else (if bs[0].row == row then 1 else 0) + Buffered(row, bs[1..])
  }

  function Entries(rs: seq<Reply>): seq<BufferedRow> {
    if rs == [] then [] else [rs[0].entry] + Entries(rs[1..])
  }

  /** The rows of the running batch that are not settled. */
  function Unsettled(p: Phase): seq<BufferedRow> {
    match p
    case NoLoop | Between => []
    case DeadLettering(malformed, piped) => malformed + piped
    case Executing(piped) => piped
    case Settling(entry, replies) => [entry] + Entries(replies)
  }

  /** Where the copies of a row are: still owed, or settled. */
  function Owed(st: State, row: Row): nat { Buffered(row, st.buffer) + Buffered(row, Unsettled(st.phase)) }

  function SettledCopies(st: State, row: Row): nat { Copies(row, st.flushed) + Copies(row, st.dead) }

  function Located(st: State, row: Row): nat { Owed(st, row) + SettledCopies(st, row) }

  function Pending(st: State): nat { |st.buffer| + |Unsettled(st.phase)| }

  function Settled(st: State): nat { |st.flushed| + |st.dead| }

  lemma {:induction false} CopiesSnoc(row: Row, rows: seq<Row>, last: Row)
    ensures Copies(row, rows + [last]) == Copies(row, rows) + if last == row then 1 else 0
  {
    if rows == [] {
      assert rows + [last] == [last];
    } else {
      assert (rows + [last])[1..] == rows[1..] + [last];
      CopiesSnoc(row, rows[1..], last);
    }
  }

  lemma {:induction false} BufferedAppend(row: Row, a: seq<BufferedRow>, b: seq<BufferedRow>)
    ensures Buffered(row, a + b) == Buffered(row, a) + Buffered(row, b)
  {
    if a == [] {
      assert a + b == b;
    } else {
      assert (a + b)[1..] == a[1..] + b;
      BufferedAppend(row, a[1..], b);
    }
  }

  lemma BufferedOne(row: Row, b: BufferedRow, rest: seq<BufferedRow>)
    ensures Buffered(row, [b] + rest) == (if b.row == row then 1 else 0) + Buffered(row, rest)
  {
    assert ([b] + rest)[1..] == rest;
  }

  lemma {:induction false} WritableSplits(row: Row, batch: seq<BufferedRow>)
    ensures Buffered(row, Writable(batch, false)) + Buffered(row, Writable(batch, true)) == Buffered(row, batch)
    ensures |Writable(batch, false)| + |Writable(batch, true)| == |batch|
  {
    if batch != [] {
      WritableSplits(row, batch[1..]);
      BufferedOne(row, batch[0], Writable(batch[1..], batch[0].row.writable));
    }
  }

  lemma TakeBatchConserves(cfg: Config, st: State, row: Row)
    requires Unsettled(st.phase) == []
    ensures Owed(TakeBatch(cfg, st), row) == Owed(st, row) && Pending(TakeBatch(cfg, st)) == Pending(st)
  {
    var n := Size(cfg, st);
    var batch := st.buffer[..n];
    WritableSplits(row, batch);
    BufferedAppend(row, Writable(batch, false), Writable(batch, true));
    assert st.buffer == batch + st.buffer[n..];
    BufferedAppend(row, batch, st.buffer[n..]);
  }

  lemma RecheckConserves(cfg: Config, st: State, row: Row)
    requires st.phase.Between?
    ensures var st1 := Recheck(cfg, st);
            Owed(st1, row) == Owed(st, row) && Pending(st1) == Pending(st)
            && st1.flushed == st.flushed && st1.dead == st.dead && st1.accepted == st.accepted
  {
    if st.buffer != [] { TakeBatchConserves(cfg, st, row); }
  }

  /** `replies` are the only rows of the batch left. */
  lemma {:induction false} WalkConserves(cfg: Config, st: State, replies: seq<Reply>, row: Row)
    ensures Located(Walk(cfg, st, replies), row)
            == Buffered(row, st.buffer) + Buffered(row, Entries(replies)) + SettledCopies(st, row)
    decreases |replies|
  {
    if replies == [] {
      assert Walk(cfg, st, replies) == st.(phase := Between);
    } else {
      var r, rest := replies[0], replies[1..];
      BufferedOne(row, r.entry, Entries(rest));
      if r.outcome == Ok {
        var st2 := st.(flushed := st.flushed + [r.entry.row]);
        CopiesSnoc(row, st.flushed, r.entry.row);
        WalkConserves(cfg, st2, rest, row);
        assert Walk(cfg, st, replies) == Walk(cfg, st2, rest);
      } else if !GivesUp(cfg, r) {
        var again := BufferedRow(r.entry.row, r.entry.attempts + 1);
        var st2 := st.(buffer := [again] + st.buffer);
        BufferedOne(row, again, st.buffer);
        WalkConserves(cfg, st2, rest, row);
        assert Walk(cfg, st, replies) == Walk(cfg, st2, rest);
      }
    }
  }

  lemma {:induction false} WalkCounts(cfg: Config, st: State, replies: seq<Reply>)
    ensures var st1 := Walk(cfg, st, replies);
            Pending(st1) + Settled(st1) == |st.buffer| + |Entries(replies)| + Settled(st) && st1.accepted == st.accepted
            && Settled(st1) >= Settled(st)
    decreases |replies|
  {
    if replies != [] {
      var r := replies[0];
      if r.outcome == Ok {
        WalkCounts(cfg, st.(flushed := st.flushed + [r.entry.row]), replies[1..]);
      } else if !GivesUp(cfg, r) {
        WalkCounts(cfg, st.(buffer := [BufferedRow(r.entry.row, r.entry.attempts + 1)] + st.buffer), replies[1..]);
      }
    }
  }

  lemma {:induction false} PairEntries(piped: seq<BufferedRow>, outcomes: seq<Outcome>)
    requires |piped| == |outcomes|
    ensures Entries(Pair(piped, outcomes)) == piped
  {
    if piped != [] {
      PairEntries(piped[1..], outcomes[1..]);
      assert Pair(piped, outcomes)[1..] == Pair(piped[1..], outcomes[1..]);
    }
  }

  lemma ScheduleConserves(cfg: Config, st: State, row: Row)
    requires st.promise || st.phase.NoLoop?
    ensures var st1 := ScheduleFlush(cfg, st);
            Owed(st1, row) == Owed(st, row) && Pending(st1) == Pending(st)
            && st1.flushed == st.flushed && st1.dead == st.dead && st1.accepted == st.accepted
  {
    if !st.promise && st.buffer != [] { TakeBatchConserves(cfg, st, row); }
  }

  /** The rows a step adds to the accepted ones. */
  function Added(step: Step): nat { if step.PushRow? then 1 else 0 }

  lemma PushConserves(cfg: Config, st: State, pushed: Row, row: Row)
    requires st.promise || st.phase.NoLoop?
    ensures var st1 := Push(cfg, st, pushed);
            && Owed(st1, row) == Owed(st, row) + (if pushed == row then 1 else 0)
            && SettledCopies(st1, row) == SettledCopies(st, row)
            && Pending(st1) == Pending(st) + 1 && Settled(st1) == Settled(st)
            && st1.accepted == st.accepted + [pushed]
  {
    BufferedAppend(row, st.buffer, [BufferedRow(pushed, 0)]);
    BufferedOne(row, BufferedRow(pushed, 0), []);
    assert [BufferedRow(pushed, 0)] == [BufferedRow(pushed, 0)] + [];
    var st1 := st.(buffer := st.buffer + [BufferedRow(pushed, 0)], accepted := st.accepted + [pushed], timer := false);
    if |st1.buffer| >= cfg.batchSize { ScheduleConserves(cfg, st1, row); }
  }

  lemma MalformedConserves(cfg: Config, st: State, row: Row)
    requires st.phase.DeadLettering? && st.phase.malformed != []
    ensures var st1 := MalformedSettled(cfg, st);
            && Located(st1, row) == Located(st, row)
            && Pending(st1) + Settled(st1) == Pending(st) + Settled(st) && st1.accepted == st.accepted
  {
    var m, piped := st.phase.malformed, st.phase.piped;
    CopiesSnoc(row, st.dead, m[0].row);
    MalformedLeaves(m, piped, row);
    var st1 := MalformedSettled(cfg, st);
    assert Unsettled(st1.phase) == m[1..] + piped by {
      if |m| == 1 { assert m[1..] + piped == piped; }
    }
  }

  lemma MalformedLeaves(m: seq<BufferedRow>, piped: seq<BufferedRow>, row: Row)
    requires m != []
    ensures Buffered(row, m + piped) == (if m[0].row == row then 1 else 0) + Buffered(row, m[1..] + piped)
  {
    assert m + piped == [m[0]] + (m[1..] + piped);
    BufferedOne(row, m[0], m[1..] + piped);
  }

  lemma RepliedConserves(cfg: Config, st: State, outcomes: seq<Outcome>, row: Row)
    requires st.phase.Executing? && |outcomes| == |st.phase.piped|
    ensures var st1 := Replied(cfg, st, outcomes);
            && Located(st1, row) == Located(st, row)
            && Pending(st1) + Settled(st1) == Pending(st) + Settled(st) && st1.accepted == st.accepted
  {
    PairEntries(st.phase.piped, outcomes);
    var st2 := st.(sent := st.sent + RowsOf(st.phase.piped));
    WalkConserves(cfg, st2, Pair(st.phase.piped, outcomes), row);
    WalkCounts(cfg, st2, Pair(st.phase.piped, outcomes));
  }

  lemma DeadConserves(cfg: Config, st: State, row: Row)
    requires st.phase.Settling?
    ensures var st1 := DeadSettled(cfg, st);
            && Located(st1, row) == Located(st, row)
            && Pending(st1) + Settled(st1) == Pending(st) + Settled(st) && st1.accepted == st.accepted
  {
    CopiesSnoc(row, st.dead, st.phase.entry.row);
    BufferedOne(row, st.phase.entry, Entries(st.phase.replies));
    WalkConserves(cfg, st.(dead := st.dead + [st.phase.entry.row]), st.phase.replies, row);
    WalkCounts(cfg, st.(dead := st.dead + [st.phase.entry.row]), st.phase.replies);
  }

  // ------------------------------------------------------------ what every reachable state satisfies

  ghost predicate ValidConfig(cfg: Config) { cfg.batchSize >= 1 && cfg.idleFlushMs >= 0 }

  /** The number of times a row may be sent. */
  function Budget(cfg: Config): nat { if cfg.maxRetries <= 1 then 1 else cfg.maxRetries }

  /** Rows in hand have been sent fewer times than they may be. */
  ghost predicate Bounded(cfg: Config, bs: seq<BufferedRow>) {
    forall i | 0 <= i < |bs| :: bs[i].attempts < Budget(cfg)
  }

  ghost predicate AllAre(bs: seq<BufferedRow>, writable: bool) { forall b | b in bs :: b.row.writable == writable }

  /** Only rows that are not writable are dead-lettered unsent; only writable ones are sent. */
  ghost predicate Shaped(p: Phase) {
    match p
    case DeadLettering(malformed, piped) => malformed != [] && AllAre(malformed, false) && AllAre(piped, true)
    case Executing(piped) => piped != [] && AllAre(piped, true)
    case Settling(entry, replies) => entry.row.writable && AllAre(Entries(replies), true)
    case _ => true
  }

  /** The promise is set exactly while there is a loop. */
  ghost predicate Inv(cfg: Config, st: State) {
    && Bounded(cfg, st.buffer) && Bounded(cfg, Unsettled(st.phase)) && Shaped(st.phase)
    && (st.promise <==> !st.phase.NoLoop?)
  }

  ghost predicate NotStranded(st: State) { st.buffer != [] ==> !st.phase.NoLoop? || st.timer }

  lemma {:induction false} WritableBounded(cfg: Config, batch: seq<BufferedRow>, w: bool)
    requires Bounded(cfg, batch)
    ensures Bounded(cfg, Writable(batch, w))
  {
    if batch != [] {
      WritableBounded(cfg, batch[1..], w);
    }
  }

  lemma {:induction false} WritableAre(batch: seq<BufferedRow>, w: bool)
    ensures AllAre(Writable(batch, w), w)
  {
    if batch != [] {
      WritableAre(batch[1..], w);
    }
  }

  lemma TakeBatchInv(cfg: Config, st: State)
    requires ValidConfig(cfg) && Bounded(cfg, st.buffer) && st.buffer != []
    ensures var st1 := TakeBatch(cfg, st);
            Bounded(cfg, st1.buffer) && Bounded(cfg, Unsettled(st1.phase)) && Shaped(st1.phase) && !st1.phase.NoLoop?
  {
    var batch := st.buffer[..Size(cfg, st)];
    WritableBounded(cfg, batch, false);
    WritableBounded(cfg, batch, true);
    WritableAre(batch, false);
    WritableAre(batch, true);
    WritableSplits(batch[0].row, batch);
  }

  lemma RecheckInv(cfg: Config, st: State)
    requires ValidConfig(cfg) && Bounded(cfg, st.buffer) && st.promise
    ensures Inv(cfg, Recheck(cfg, st)) && (Recheck(cfg, st).phase.NoLoop? ==> Recheck(cfg, st).buffer == [])
    ensures Recheck(cfg, st).timer == st.timer
  {
    if st.buffer != [] { TakeBatchInv(cfg, st); }
  }

  lemma {:induction false} WalkInv(cfg: Config, st: State, replies: seq<Reply>)
    requires ValidConfig(cfg) && Bounded(cfg, st.buffer) && Bounded(cfg, Entries(replies)) && st.promise
    requires AllAre(Entries(replies), true)
    ensures var st1 := Walk(cfg, st, replies);
            Inv(cfg, st1) && !st1.phase.NoLoop? && st1.timer == st.timer
    decreases |replies|
  {
    if replies != [] {
      var r, es := replies[0], Entries(replies);
      assert es[0] == r.entry && es[1..] == Entries(replies[1..]);
      assert Bounded(cfg, Entries(replies[1..])) && AllAre(Entries(replies[1..]), true);
      if r.outcome == Ok {
        WalkInv(cfg, st.(flushed := st.flushed + [r.entry.row]), replies[1..]);
      } else if !GivesUp(cfg, r) {
        WalkInv(cfg, st.(buffer := [BufferedRow(r.entry.row, r.entry.attempts + 1)] + st.buffer), replies[1..]);
      }
    }
  }

  lemma ScheduleInv(cfg: Config, st: State)
    requires ValidConfig(cfg) && Inv(cfg, st) && st.buffer != []
    ensures Inv(cfg, ScheduleFlush(cfg, st)) && !ScheduleFlush(cfg, st).phase.NoLoop?
  {
    if !st.promise { TakeBatchInv(cfg, st); }
  }

  lemma StepInv(cfg: Config, st: State, step: Step)
    requires ValidConfig(cfg) && Inv(cfg, st) && Enabled(st, step)
    ensures Inv(cfg, Apply(cfg, st, step))
    ensures !st.phase.NoLoop? && Apply(cfg, st, step).phase.NoLoop? ==> Apply(cfg, st, step).buffer == []
    ensures cfg.idleFlushMs > 0 || cfg.batchSize == 1 ==> (NotStranded(st) ==> NotStranded(Apply(cfg, st, step)))
  {
    match step {
      case PushRow(row) =>
        var st1 := st.(buffer := st.buffer + [BufferedRow(row, 0)], accepted := st.accepted + [row], timer := false);
        assert Inv(cfg, st1);
        if |st1.buffer| >= cfg.batchSize { ScheduleInv(cfg, st1); }
      case IdleFire => if st.buffer != [] { ScheduleInv(cfg, st.(timer := false)); }
      case DrainCall => if st.buffer != [] { ScheduleInv(cfg, st.(timer := false)); }
      case Malformed => MalformedInv(cfg, st);
      case Replies(outcomes) =>
        PairEntries(st.phase.piped, outcomes);
        WalkInv(cfg, st.(sent := st.sent + RowsOf(st.phase.piped)), Pair(st.phase.piped, outcomes));
      case DeadLettered =>
        assert Unsettled(st.phase)[1..] == Entries(st.phase.replies);
        WalkInv(cfg, st.(dead := st.dead + [st.phase.entry.row]), st.phase.replies);
      case LoopTest => RecheckInv(cfg, st);
    }
  }

  lemma MalformedInv(cfg: Config, st: State)
    requires ValidConfig(cfg) && Inv(cfg, st) && st.phase.DeadLettering?
    ensures var st1 := MalformedSettled(cfg, st);
            Inv(cfg, st1) && !st1.phase.NoLoop? && st1.timer == st.timer
  {
    var m, piped := st.phase.malformed, st.phase.piped;
    assert Bounded(cfg, m[1..] + piped) by { assert (m + piped)[1..] == m[1..] + piped; }
    if |m| == 1 {
      assert m[1..] + piped == piped;
    }
  }

  lemma StepConserves(cfg: Config, st: State, step: Step, row: Row)
    requires ValidConfig(cfg) && Inv(cfg, st) && Enabled(st, step)
    ensures var st1 := Apply(cfg, st, step);
            && Located(st1, row) == Located(st, row) + (if step == PushRow(row) then 1 else 0)
            && Pending(st1) + Settled(st1) == Pending(st) + Settled(st) + Added(step)
            && st1.accepted == if step.PushRow? then st.accepted + [step.row] else st.accepted
  {
    match step {
      case PushRow(pushed) => PushConserves(cfg, st, pushed, row);
      case IdleFire => if st.buffer != [] { ScheduleConserves(cfg, st.(timer := false), row); }
      case DrainCall => if st.buffer != [] { ScheduleConserves(cfg, st.(timer := false), row); }
      case Malformed => MalformedConserves(cfg, st, row);
      case Replies(outcomes) => RepliedConserves(cfg, st, outcomes, row);
      case DeadLettered => DeadConserves(cfg, st, row);
      case LoopTest => RecheckConserves(cfg, st, row);
    }
  }

  /** Nothing is ever unsettled again. */
  lemma SettledGrows(cfg: Config, st: State, step: Step)
    requires Enabled(st, step)
    ensures Settled(Apply(cfg, st, step)) >= Settled(st)
  {
    match step {
      case Replies(outcomes) =>
        WalkCounts(cfg, st.(sent := st.sent + RowsOf(st.phase.piped)), Pair(st.phase.piped, outcomes));
      case DeadLettered => WalkCounts(cfg, st.(dead := st.dead + [st.phase.entry.row]), st.phase.replies);
      case _ =>
    }
  }

  // ------------------------------------------------------------ runs

  ghost predicate Run(cfg: Config, states: seq<State>, steps: seq<Step>) {
    && |states| == |steps| + 1 && states[0] == Start()
    && forall i | 0 <= i < |steps| :: Enabled(states[i], steps[i]) && states[i + 1] == Apply(cfg, states[i], steps[i])
  }

  lemma {:induction false} InvRun(cfg: Config, states: seq<State>, steps: seq<Step>, n: nat)
    requires ValidConfig(cfg) && Run(cfg, states, steps) && n <= |steps|
    ensures Inv(cfg, states[n])
    ensures cfg.idleFlushMs > 0 || cfg.batchSize == 1 ==> NotStranded(states[n])
  {
    if n > 0 {
      InvRun(cfg, states, steps, n - 1);
      StepInv(cfg, states[n - 1], steps[n - 1]);
    }
  }

  ghost predicate NeverStrands(cfg: Config) {
    forall states, steps, n: nat | Run(cfg, states, steps) && n <= |steps| :: NotStranded(states[n])
  }

  /** Rows can be left without loop and without timer exactly when the timer is off and a batch needs company. */
  lemma NeverStrandsExactly(cfg: Config)
    requires ValidConfig(cfg)
    ensures NeverStrands(cfg) <==> cfg.idleFlushMs > 0 || cfg.batchSize == 1
  {
    if cfg.idleFlushMs > 0 || cfg.batchSize == 1 {
      forall states, steps, n: nat | Run(cfg, states, steps) && n <= |steps| ensures NotStranded(states[n]) {
        InvRun(cfg, states, steps, n);
      }
    } else {
      var row := Row("a", true);
      var states, steps := [Start(), Push(cfg, Start(), row)], [PushRow(row)];
      assert states[1].buffer == [BufferedRow(row, 0)];
      assert Run(cfg, states, steps) && !NotStranded(states[1]);
    }
  }

  lemma {:induction false} ConservedRun(cfg: Config, states: seq<State>, steps: seq<Step>, n: nat, row: Row)
    requires ValidConfig(cfg) && Run(cfg, states, steps) && n <= |steps|
    ensures Located(states[n], row) == Copies(row, states[n].accepted)
  {
    if n > 0 {
      ConservedRun(cfg, states, steps, n - 1, row);
      InvRun(cfg, states, steps, n - 1);
      StepConserves(cfg, states[n - 1], steps[n - 1], row);
      if steps[n - 1].PushRow? { CopiesSnoc(row, states[n - 1].accepted, steps[n - 1].row); }
    }
  }

  // ------------------------------------------------------------ termination of a drain

  function Left(cfg: Config, b: BufferedRow): nat { if b.attempts < Budget(cfg) then Budget(cfg) - b.attempts else 0 }

  /** Attempts that are still allowed, over all rows of a list. */
  function Remaining(cfg: Config, bs: seq<BufferedRow>): nat {
    if bs == [] then 0 else Left(cfg, bs[0]) + Remaining(cfg, bs[1..])
  }

  function Work(cfg: Config, st: State): nat { Remaining(cfg, st.buffer) + Remaining(cfg, Unsettled(st.phase)) }

  lemma RemainingOne(cfg: Config, b: BufferedRow, rest: seq<BufferedRow>)
    ensures Remaining(cfg, [b] + rest) == Left(cfg, b) + Remaining(cfg, rest)
  {
    assert ([b] + rest)[1..] == rest;
  }

  lemma {:induction false} RemainingAppend(cfg: Config, a: seq<BufferedRow>, b: seq<BufferedRow>)
    ensures Remaining(cfg, a + b) == Remaining(cfg, a) + Remaining(cfg, b)
  {
    if a == [] {
      assert a + b == b;
    } else {
      assert (a + b)[1..] == a[1..] + b;
      RemainingAppend(cfg, a[1..], b);
    }
  }

  lemma {:induction false} RemainingSplits(cfg: Config, batch: seq<BufferedRow>)
    ensures Remaining(cfg, Writable(batch, false)) + Remaining(cfg, Writable(batch, true)) == Remaining(cfg, batch)
  {
    if batch != [] {
      RemainingSplits(cfg, batch[1..]);
      RemainingOne(cfg, batch[0], Writable(batch[1..], batch[0].row.writable));
    }
  }

  lemma RecheckWork(cfg: Config, st: State)
    ensures Work(cfg, Recheck(cfg, st)) == Remaining(cfg, st.buffer)
  {
    if st.buffer != [] {
      var n := Size(cfg, st);
      var batch := st.buffer[..n];
      RemainingSplits(cfg, batch);
      RemainingAppend(cfg, Writable(batch, false), Writable(batch, true));
      assert st.buffer == batch + st.buffer[n..];
      RemainingAppend(cfg, batch, st.buffer[n..]);
    }
  }

  /** Walking replies never adds work, and removes some unless it stops at the first one. */
  lemma {:induction false} WalkWork(cfg: Config, st: State, replies: seq<Reply>)
    requires Bounded(cfg, Entries(replies))
    ensures var before, after := Remaining(cfg, st.buffer) + Remaining(cfg, Entries(replies)),
            Work(cfg, Walk(cfg, st, replies));
            after <= before && (replies != [] && !Walk(cfg, st, replies).phase.Settling? ==> after < before)
    decreases |replies|
  {
    if replies != [] {
      var r, rest, es := replies[0], replies[1..], Entries(replies);
      assert es[0] == r.entry && es[1..] == Entries(rest);
      assert Bounded(cfg, Entries(rest));
      RemainingOne(cfg, r.entry, Entries(rest));
      if r.outcome == Ok {
        WalkWork(cfg, st.(flushed := st.flushed + [r.entry.row]), rest);
      } else if !GivesUp(cfg, r) {
        var again := BufferedRow(r.entry.row, r.entry.attempts + 1);
        RemainingOne(cfg, again, st.buffer);
        WalkWork(cfg, st.(buffer := [again] + st.buffer), rest);
      }
    }
  }

  predicate IsLoopStep(step: Step) { step.Malformed? || step.Replies? || step.DeadLettered? || step.LoopTest? }

  function Rank(p: Phase): nat { if p.Between? then 2 else if p.Executing? then 1 else 0 }

  /** Every step of the loop uses up attempts, or moves the loop to where the next step, or the one after, will. */
  lemma LoopProgress(cfg: Config, st: State, step: Step)
    requires ValidConfig(cfg) && Inv(cfg, st) && Enabled(st, step) && IsLoopStep(step)
    ensures var st1 := Apply(cfg, st, step);
            Work(cfg, st1) < Work(cfg, st) || (Work(cfg, st1) == Work(cfg, st) && Rank(st1.phase) < Rank(st.phase))
  {
    match step {
      case Malformed =>
        var m, piped := st.phase.malformed, st.phase.piped;
        assert m + piped == [m[0]] + (m[1..] + piped);
        assert (m + piped)[0] == m[0];
        RemainingOne(cfg, m[0], m[1..] + piped);
        if |m| == 1 {
          assert m[1..] + piped == piped;
        }
      case Replies(outcomes) =>
        PairEntries(st.phase.piped, outcomes);
        WalkWork(cfg, st.(sent := st.sent + RowsOf(st.phase.piped)), Pair(st.phase.piped, outcomes));
      case DeadLettered =>
        var es := Unsettled(st.phase);
        assert es[0] == st.phase.entry && es[1..] == Entries(st.phase.replies);
        RemainingOne(cfg, st.phase.entry, Entries(st.phase.replies));
        WalkWork(cfg, st.(dead := st.dead + [st.phase.entry.row]), st.phase.replies);
      case LoopTest => RecheckWork(cfg, st);
    }
  }

  // ------------------------------------------------------------ how often a row is sent

  /** The sends a list still allows for a row. */
  function Quota(cfg: Config, row: Row, bs: seq<BufferedRow>): nat {
    if bs == [] then 0 else (if bs[0].row == row then Left(cfg, bs[0]) else 0) + Quota(cfg, row, bs[1..])
  }

  /** Rows waiting for a dead letter have had their send of this round. */
  function PhaseQuota(cfg: Config, row: Row, p: Phase): int {
    Quota(cfg, row, Unsettled(p)) - if p.Settling? then Buffered(row, Unsettled(p)) else 0
  }

  function Sends(cfg: Config, st: State, row: Row): int {
    Copies(row, st.sent) + Quota(cfg, row, st.buffer) + PhaseQuota(cfg, row, st.phase)
  }

  lemma QuotaOne(cfg: Config, row: Row, b: BufferedRow, rest: seq<BufferedRow>)
    ensures Quota(cfg, row, [b] + rest) == (if b.row == row then Left(cfg, b) else 0) + Quota(cfg, row, rest)
  {
    assert ([b] + rest)[1..] == rest;
  }

  lemma {:induction false} QuotaAppend(cfg: Config, row: Row, a: seq<BufferedRow>, b: seq<BufferedRow>)
    ensures Quota(cfg, row, a + b) == Quota(cfg, row, a) + Quota(cfg, row, b)
  {
    if a == [] {
      assert a + b == b;
    } else {
      assert (a + b)[1..] == a[1..] + b;
      QuotaAppend(cfg, row, a[1..], b);
    }
  }

  lemma {:induction false} QuotaSplits(cfg: Config, row: Row, batch: seq<BufferedRow>)
    ensures Quota(cfg, row, Writable(batch, false)) + Quota(cfg, row, Writable(batch, true)) == Quota(cfg, row, batch)
  {
    if batch != [] {
      QuotaSplits(cfg, row, batch[1..]);
      QuotaOne(cfg, row, batch[0], Writable(batch[1..], batch[0].row.writable));
    }
  }

  lemma {:induction false} QuotaCovers(cfg: Config, row: Row, bs: seq<BufferedRow>)
    requires Bounded(cfg, bs)
    ensures Quota(cfg, row, bs) >= Buffered(row, bs)
  {
    if bs != [] {
      QuotaCovers(cfg, row, bs[1..]);
    }
  }

  lemma BatchQuota(cfg: Config, row: Row, buffer: seq<BufferedRow>, n: nat)
    requires n <= |buffer|
    ensures Quota(cfg, row, buffer)
            == Quota(cfg, row, buffer[n..])
            + Quota(cfg, row, Writable(buffer[..n], false) + Writable(buffer[..n], true))
  {
    var batch := buffer[..n];
    QuotaSplits(cfg, row, batch);
    QuotaAppend(cfg, row, Writable(batch, false), Writable(batch, true));
    assert buffer == batch + buffer[n..];
    QuotaAppend(cfg, row, batch, buffer[n..]);
  }

  lemma TakeBatchSends(cfg: Config, st: State, row: Row)
    requires Unsettled(st.phase) == []
    ensures Sends(cfg, TakeBatch(cfg, st), row) == Copies(row, st.sent) + Quota(cfg, row, st.buffer)
  {
    var n := Size(cfg, st);
    BatchQuota(cfg, row, st.buffer, n);
    assert Writable(st.buffer[..n], false) == [] ==>
        Writable(st.buffer[..n], false) + Writable(st.buffer[..n], true) == Writable(st.buffer[..n], true);
  }

  lemma RecheckSends(cfg: Config, st: State, row: Row)
    requires st.phase.Between?
    ensures Sends(cfg, Recheck(cfg, st), row) == Copies(row, st.sent) + Quota(cfg, row, st.buffer)
  {
    if st.buffer != [] { TakeBatchSends(cfg, st, row); }
  }

  lemma {:induction false} WalkSends(cfg: Config, st: State, replies: seq<Reply>, row: Row)
    requires Bounded(cfg, Entries(replies))
    ensures Sends(cfg, Walk(cfg, st, replies), row)
         <= Copies(row, st.sent) + Quota(cfg, row, st.buffer) + Quota(cfg, row, Entries(replies))
            - Buffered(row, Entries(replies))
    decreases |replies|
  {
    if replies == [] {
      assert Walk(cfg, st, replies) == st.(phase := Between);
    } else {
      var r, rest, es := replies[0], replies[1..], Entries(replies);
      assert es[0] == r.entry && es[1..] == Entries(rest);
      assert Bounded(cfg, Entries(rest));
      QuotaOne(cfg, row, r.entry, Entries(rest));
      BufferedOne(row, r.entry, Entries(rest));
      if r.outcome == Ok {
        var st2 := st.(flushed := st.flushed + [r.entry.row]);
        WalkSends(cfg, st2, rest, row);
        assert Walk(cfg, st, replies) == Walk(cfg, st2, rest);
      } else if !GivesUp(cfg, r) {
        var again := BufferedRow(r.entry.row, r.entry.attempts + 1);
        var st2 := st.(buffer := [again] + st.buffer);
        QuotaOne(cfg, row, again, st.buffer);
        WalkSends(cfg, st2, rest, row);
        assert Walk(cfg, st, replies) == Walk(cfg, st2, rest);
      }
    }
  }

  lemma {:induction false} CopiesOfRows(row: Row, sent: seq<Row>, bs: seq<BufferedRow>)
    ensures Copies(row, sent + RowsOf(bs)) == Copies(row, sent) + Buffered(row, bs)
    decreases |bs|
  {
    if bs == [] {
      assert sent + RowsOf(bs) == sent;
    } else {
      assert sent + RowsOf(bs) == (sent + [bs[0].row]) + RowsOf(bs[1..]);
      CopiesSnoc(row, sent, bs[0].row);
      CopiesOfRows(row, sent + [bs[0].row], bs[1..]);
    }
  }

  lemma LoopSends(cfg: Config, st: State, step: Step, row: Row)
    requires Inv(cfg, st) && Enabled(st, step) && IsLoopStep(step)
    ensures Sends(cfg, Apply(cfg, st, step), row) <= Sends(cfg, st, row)
  {
    match step {
      case Malformed =>
        var m, piped := st.phase.malformed, st.phase.piped;
        assert m + piped == [m[0]] + (m[1..] + piped);
        QuotaOne(cfg, row, m[0], m[1..] + piped);
        if |m| == 1 {
          assert m[1..] + piped == piped;
        }
      case Replies(outcomes) =>
        PairEntries(st.phase.piped, outcomes);
        CopiesOfRows(row, st.sent, st.phase.piped);
        WalkSends(cfg, st.(sent := st.sent + RowsOf(st.phase.piped)), Pair(st.phase.piped, outcomes), row);
      case DeadLettered =>
        var es := Unsettled(st.phase);
        assert es[0] == st.phase.entry && es[1..] == Entries(st.phase.replies);
        QuotaOne(cfg, row, st.phase.entry, Entries(st.phase.replies));
        BufferedOne(row, st.phase.entry, Entries(st.phase.replies));
        WalkSends(cfg, st.(dead := st.dead + [st.phase.entry.row]), st.phase.replies, row);
      case LoopTest => RecheckSends(cfg, st, row);
    }
  }

  lemma ScheduleSends(cfg: Config, st: State, row: Row)
    requires st.promise || st.phase.NoLoop?
    ensures Sends(cfg, ScheduleFlush(cfg, st), row) == Sends(cfg, st, row)
  {
    if !st.promise && st.buffer != [] { TakeBatchSends(cfg, st, row); }
  }

  lemma StepSends(cfg: Config, st: State, step: Step, row: Row)
    requires Inv(cfg, st) && Enabled(st, step)
    ensures Sends(cfg, Apply(cfg, st, step), row)
            <= Sends(cfg, st, row) + if step == PushRow(row) then Budget(cfg) else 0
  {
    if IsLoopStep(step) {
      LoopSends(cfg, st, step, row);
    } else if step.PushRow? {
      var b := BufferedRow(step.row, 0);
      QuotaAppend(cfg, row, st.buffer, [b]);
      QuotaOne(cfg, row, b, []);
      assert [b] == [b] + [];
      ScheduleSends(cfg, st.(buffer := st.buffer + [b], accepted := st.accepted + [step.row], timer := false), row);
    } else if st.buffer != [] {
      ScheduleSends(cfg, st.(timer := false), row);
    }
  }

  lemma BudgetOfOneMore(budget: nat, n: nat)
    ensures budget * (n + 1) == budget * n + budget
  {
  }

  /** In every run a row is sent at most max(1, maxRetries) times for each time it was accepted. */
  lemma {:induction false} SendsBounded(cfg: Config, states: seq<State>, steps: seq<Step>, n: nat, row: Row)
    requires ValidConfig(cfg) && Run(cfg, states, steps) && n <= |steps|
    ensures Sends(cfg, states[n], row) <= Budget(cfg) * Copies(row, states[n].accepted)
    ensures Copies(row, states[n].sent) <= Budget(cfg) * Copies(row, states[n].accepted)
  {
    InvRun(cfg, states, steps, n);
    QuotaCovers(cfg, row, Unsettled(states[n].phase));
    if n > 0 {
      var step := steps[n - 1];
      SendsBounded(cfg, states, steps, n - 1, row);
      InvRun(cfg, states, steps, n - 1);
      StepSends(cfg, states[n - 1], step, row);
      StepConserves(cfg, states[n - 1], step, row);
      if step.PushRow? {
        CopiesSnoc(row, states[n - 1].accepted, step.row);
        BudgetOfOneMore(Budget(cfg), Copies(row, states[n - 1].accepted));
      }
    }
  }

  // ------------------------------------------------------------ which rows are flushed and which are dead

  /** Copies of a row among replies that are Ok. */
  function OkIn(row: Row, rs: seq<Reply>): nat {
    if rs == [] then 0 else (if rs[0].entry.row == row && rs[0].outcome == Ok then 1 else 0) + OkIn(row, rs[1..])
  }

  /** A permanent error, or a transient one that uses up the last attempt. */
  predicate Refused(cfg: Config, b: BufferedRow, outcome: Outcome) {
    match outcome
    case Ok => false
    case Permanent => true
    case Transient => b.attempts + 1 >= cfg.maxRetries
  }

  function RefusedIn(cfg: Config, row: Row, rs: seq<Reply>): nat {
    if rs == [] then 0
    else (if rs[0].entry.row == row && Refused(cfg, rs[0].entry, rs[0].outcome) then 1 else 0)
         + RefusedIn(cfg, row, rs[1..])
  }

  /** Replies that are still to be walked. */
  function Waiting(p: Phase): seq<Reply> { if p.Settling? then p.replies else [] }

  /** Copies of a row that are refused and not yet dead-lettered. */
  function RefusedInHand(cfg: Config, st: State, row: Row): nat {
    (if st.phase.Settling? && st.phase.entry.row == row then 1 else 0) + RefusedIn(cfg, row, Waiting(st.phase))
  }

  /** The rows of a list of replies that are Ok, in order. */
  function OkRows(rs: seq<Reply>): seq<Row> {
    if rs == [] then []
    else (if rs[0].outcome == Ok then [rs[0].entry.row] else []) + OkRows(rs[1..])
  }

  /** The transient ones with one more attempt, the last of them in front. */
  function Again(rs: seq<Reply>): seq<BufferedRow> {
    if rs == [] then []
    else Again(rs[1..])
         + if rs[0].outcome == Transient then [BufferedRow(rs[0].entry.row, rs[0].entry.attempts + 1)] else []
  }

  lemma AgainOk(r: Reply, rs: seq<Reply>, flushed: seq<Row>, buffer: seq<BufferedRow>)
    requires r.outcome == Ok
    ensures flushed + OkRows([r] + rs) == (flushed + [r.entry.row]) + OkRows(rs)
    ensures Again([r] + rs) + buffer == Again(rs) + buffer
  {
    assert ([r] + rs)[1..] == rs;
    assert Again(rs) + [] == Again(rs);
  }

  lemma AgainTransient(r: Reply, rs: seq<Reply>, flushed: seq<Row>, buffer: seq<BufferedRow>)
    requires r.outcome == Transient
    ensures flushed + OkRows([r] + rs) == flushed + OkRows(rs)
    ensures Again([r] + rs) + buffer == Again(rs) + ([BufferedRow(r.entry.row, r.entry.attempts + 1)] + buffer)
  {
    assert ([r] + rs)[1..] == rs;
    assert [] + OkRows(rs) == OkRows(rs);
  }

  /** What the first k replies, none refused, leave. */
  function Passed(st: State, replies: seq<Reply>, k: nat): State
    requires k <= |replies|
  {
    st.(flushed := st.flushed + OkRows(replies[..k]), buffer := Again(replies[..k]) + st.buffer,
        phase := if k < |replies| then Settling(replies[k].entry, replies[k + 1..]) else Between)
  }

  lemma PassedOneMore(st: State, replies: seq<Reply>, k: nat)
    requires k < |replies| && replies[0].outcome != Permanent
    ensures var r := replies[0];
            var next := if r.outcome == Ok then st.(flushed := st.flushed + [r.entry.row])
                else st.(buffer := [BufferedRow(r.entry.row, r.entry.attempts + 1)] + st.buffer);
            Passed(st, replies, k + 1) == Passed(next, replies[1..], k)
  {
    var r, rest := replies[0], replies[1..];
    assert replies[..k + 1] == [r] + rest[..k];
    if r.outcome == Ok {
      AgainOk(r, rest[..k], st.flushed, st.buffer);
    } else {
      AgainTransient(r, rest[..k], st.flushed, st.buffer);
    }
    assert k + 1 < |replies| ==> replies[k + 1] == rest[k] && replies[k + 2..] == rest[k + 1..];
  }

  lemma PassedNone(st: State, replies: seq<Reply>)
    ensures Passed(st, replies, 0)
            == st.(phase := if replies != [] then Settling(replies[0].entry, replies[1..]) else Between)
  {
    assert st.flushed + [] == st.flushed && [] + st.buffer == st.buffer;
  }

  /**
   A walk passes the replies up to the first refused one: the Ok rows are flushed in order, the others are back in
   front of the buffer with one more attempt, and no row dies before its dead letter is out.
   */
  lemma {:induction false} WalkedExactly(cfg: Config, st: State, replies: seq<Reply>) returns (k: nat)
    ensures k <= |replies| && forall i | 0 <= i < k :: !Refused(cfg, replies[i].entry, replies[i].outcome)
    ensures k < |replies| ==> Refused(cfg, replies[k].entry, replies[k].outcome)
    ensures Walk(cfg, st, replies) == Passed(st, replies, k)
    decreases |replies|
  {
    if replies == [] || Refused(cfg, replies[0].entry, replies[0].outcome) {
      k := 0;
      PassedNone(st, replies);
    } else {
      var r, rest := replies[0], replies[1..];
      var next := if r.outcome == Ok then st.(flushed := st.flushed + [r.entry.row])
          else st.(buffer := [BufferedRow(r.entry.row, r.entry.attempts + 1)] + st.buffer);
      var j := WalkedExactly(cfg, next, rest);
      k := j + 1;
      PassedOneMore(st, replies, j);
    }
  }

  lemma {:induction false} WalkJudges(cfg: Config, st: State, replies: seq<Reply>, row: Row)
    ensures var st1 := Walk(cfg, st, replies);
            && Copies(row, st1.flushed) + OkIn(row, Waiting(st1.phase)) == Copies(row, st.flushed) + OkIn(row, replies)
            && Copies(row, st1.dead) + RefusedInHand(cfg, st1, row)
               == Copies(row, st.dead) + RefusedIn(cfg, row, replies)
    decreases |replies|
  {
    if replies == [] {
      assert Walk(cfg, st, replies) == st.(phase := Between);
    } else {
      var r, rest := replies[0], replies[1..];
      if r.outcome == Ok {
        var st2 := st.(flushed := st.flushed + [r.entry.row]);
        CopiesSnoc(row, st.flushed, r.entry.row);
        WalkJudges(cfg, st2, rest, row);
        assert Walk(cfg, st, replies) == Walk(cfg, st2, rest);
      } else if !GivesUp(cfg, r) {
        var st2 := st.(buffer := [BufferedRow(r.entry.row, r.entry.attempts + 1)] + st.buffer);
        WalkJudges(cfg, st2, rest, row);
        assert Walk(cfg, st, replies) == Walk(cfg, st2, rest);
      }
    }
  }

  /** Copies of a row that the pipeline answers with Ok, and with a refusal. */
  function OksAmong(row: Row, piped: seq<BufferedRow>, outcomes: seq<Outcome>): nat {
    if piped == [] || outcomes == [] then 0
    else (if piped[0].row == row && outcomes[0] == Ok then 1 else 0) + OksAmong(row, piped[1..], outcomes[1..])
  }

  function RefusalsAmong(cfg: Config, row: Row, piped: seq<BufferedRow>, outcomes: seq<Outcome>): nat {
    if piped == [] || outcomes == [] then 0
    else (if piped[0].row == row && Refused(cfg, piped[0], outcomes[0]) then 1 else 0)
         + RefusalsAmong(cfg, row, piped[1..], outcomes[1..])
  }

  lemma {:induction false} PairJudged(cfg: Config, row: Row, piped: seq<BufferedRow>, outcomes: seq<Outcome>)
    requires |piped| == |outcomes|
    ensures OkIn(row, Pair(piped, outcomes)) == OksAmong(row, piped, outcomes)
    ensures RefusedIn(cfg, row, Pair(piped, outcomes)) == RefusalsAmong(cfg, row, piped, outcomes)
  {
    if piped != [] {
      PairJudged(cfg, row, piped[1..], outcomes[1..]);
      assert Pair(piped, outcomes)[1..] == Pair(piped[1..], outcomes[1..]);
    }
  }

  function OksGivenAt(st: State, step: Step, row: Row): nat {
    if step.Replies? && st.phase.Executing? then OksAmong(row, st.phase.piped, step.outcomes) else 0
  }

  function RefusalsGivenAt(cfg: Config, st: State, step: Step, row: Row): nat {
    if step.Replies? && st.phase.Executing? then RefusalsAmong(cfg, row, st.phase.piped, step.outcomes) else 0
  }

  /** A step flushes what it is told is written; a writable row dies of nothing but a refusal. */
  lemma StepJudges(cfg: Config, st: State, step: Step, row: Row)
    requires ValidConfig(cfg) && Inv(cfg, st) && Enabled(st, step)
    ensures var st1 := Apply(cfg, st, step);
            && Copies(row, st1.flushed) + OkIn(row, Waiting(st1.phase))
               == Copies(row, st.flushed) + OkIn(row, Waiting(st.phase)) + OksGivenAt(st, step, row)
            && (row.writable ==>
                  Copies(row, st1.dead) + RefusedInHand(cfg, st1, row)
                  == Copies(row, st.dead) + RefusedInHand(cfg, st, row) + RefusalsGivenAt(cfg, st, step, row))
  {
    match step {
      case Malformed =>
        assert st.phase.malformed[0] in st.phase.malformed;
        CopiesSnoc(row, st.dead, st.phase.malformed[0].row);
      case Replies(outcomes) =>
        PairJudged(cfg, row, st.phase.piped, outcomes);
        WalkJudges(cfg, st.(sent := st.sent + RowsOf(st.phase.piped)), Pair(st.phase.piped, outcomes), row);
      case DeadLettered =>
        CopiesSnoc(row, st.dead, st.phase.entry.row);
        WalkJudges(cfg, st.(dead := st.dead + [st.phase.entry.row]), st.phase.replies, row);
      case _ =>
    }
  }

  /** The Ok answers, and the refusals, a run has given a row. */
  ghost function OksGiven(states: seq<State>, steps: seq<Step>, n: nat, row: Row): nat
    requires n <= |steps| && |states| == |steps| + 1
  {
    if n == 0 then 0 else OksGiven(states, steps, n - 1, row) + OksGivenAt(states[n - 1], steps[n - 1], row)
  }

  ghost function RefusalsGiven(cfg: Config, states: seq<State>, steps: seq<Step>, n: nat, row: Row): nat
    requires n <= |steps| && |states| == |steps| + 1
  {
    if n == 0 then 0
    else RefusalsGiven(cfg, states, steps, n - 1, row) + RefusalsGivenAt(cfg, states[n - 1], steps[n - 1], row)
  }

  /** The rows of the batches a run has had answers to, in order. */
  ghost function Answered(states: seq<State>, steps: seq<Step>, n: nat): seq<Row>
    requires n <= |steps| && |states| == |steps| + 1
  {
    if n == 0 then []
    else
      var before, st := Answered(states, steps, n - 1), states[n - 1];
      if steps[n - 1].Replies? && st.phase.Executing? then
        before + seq(|st.phase.piped|, i requires 0 <= i < |st.phase.piped| => st.phase.piped[i].row)
      else before
  }

  lemma {:induction false} WalkSendsNothing(cfg: Config, st: State, replies: seq<Reply>)
    ensures Walk(cfg, st, replies).sent == st.sent
    decreases |replies|
  {
    if replies != [] {
      var r := replies[0];
      WalkSendsNothing(cfg, st.(flushed := st.flushed + [r.entry.row]), replies[1..]);
      WalkSendsNothing(cfg, st.(buffer := [BufferedRow(r.entry.row, r.entry.attempts + 1)] + st.buffer), replies[1..]);
    }
  }

  /** In every run the rows sent to the pipeline are those of the answered batches, in order. */
  lemma {:induction false} SentExactly(cfg: Config, states: seq<State>, steps: seq<Step>, n: nat)
    requires Run(cfg, states, steps) && n <= |steps|
    ensures states[n].sent == Answered(states, steps, n)
  {
    if n > 0 {
      SentExactly(cfg, states, steps, n - 1);
      var st := states[n - 1];
      match steps[n - 1] {
        case Replies(outcomes) =>
          WalkSendsNothing(cfg, st.(sent := st.sent + RowsOf(st.phase.piped)), Pair(st.phase.piped, outcomes));
        case DeadLettered =>
          WalkSendsNothing(cfg, st.(dead := st.dead + [st.phase.entry.row]), st.phase.replies);
        case _ =>
      }
    }
  }

  /** In every run the flushed copies of a row are its Ok answers that have been walked. */
  lemma {:induction false} FlushedExactly(cfg: Config, states: seq<State>, steps: seq<Step>, n: nat, row: Row)
    requires ValidConfig(cfg) && Run(cfg, states, steps) && n <= |steps|
    ensures Copies(row, states[n].flushed) == OksGiven(states, steps, n, row) - OkIn(row, Waiting(states[n].phase))
  {
    if n > 0 {
      FlushedExactly(cfg, states, steps, n - 1, row);
      InvRun(cfg, states, steps, n - 1);
      StepJudges(cfg, states[n - 1], steps[n - 1], row);
    }
  }

  /** The dead copies of a writable row are its refusals that have been walked and dead-lettered. */
  lemma {:induction false} DeadExactly(cfg: Config, states: seq<State>, steps: seq<Step>, n: nat, row: Row)
    requires ValidConfig(cfg) && Run(cfg, states, steps) && n <= |steps| && row.writable
    ensures Copies(row, states[n].dead)
            == RefusalsGiven(cfg, states, steps, n, row) - RefusedInHand(cfg, states[n], row)
  {
    if n > 0 {
      DeadExactly(cfg, states, steps, n - 1, row);
      InvRun(cfg, states, steps, n - 1);
      StepJudges(cfg, states[n - 1], steps[n - 1], row);
    }
  }

  lemma {:induction false} NoneAmong(row: Row, piped: seq<BufferedRow>, outcomes: seq<Outcome>)
    requires AllAre(piped, true) && !row.writable
    ensures OksAmong(row, piped, outcomes) == 0
  {
    if piped != [] && outcomes != [] {
      NoneAmong(row, piped[1..], outcomes[1..]);
    }
  }

  /** A row that is not writable is never flushed: all its settled copies are dead. */
  lemma {:induction false} MalformedNeverFlushed(cfg: Config, states: seq<State>, steps: seq<Step>, n: nat, row: Row)
    requires ValidConfig(cfg) && Run(cfg, states, steps) && n <= |steps| && !row.writable
    ensures OksGiven(states, steps, n, row) == 0 && Copies(row, states[n].flushed) == 0
  {
    FlushedExactly(cfg, states, steps, n, row);
    if n > 0 {
      MalformedNeverFlushed(cfg, states, steps, n - 1, row);
      InvRun(cfg, states, steps, n - 1);
      var st, step := states[n - 1], steps[n - 1];
      if step.Replies? { NoneAmong(row, st.phase.piped, step.outcomes); }
    }
  }

  lemma {:induction false} NoRefusals(cfg: Config, row: Row, piped: seq<BufferedRow>, outcomes: seq<Outcome>)
    requires forall i | 0 <= i < |outcomes| :: outcomes[i] == Ok
    ensures RefusalsAmong(cfg, row, piped, outcomes) == 0
  {
    if piped != [] && outcomes != [] {
      NoRefusals(cfg, row, piped[1..], outcomes[1..]);
    }
  }

  /** A batch is the front of the buffer, as many rows as there are up to the batch size, parted by what is writable. */
  lemma TakenExactly(cfg: Config, st: State)
    requires ValidConfig(cfg)
    ensures var n := if |st.buffer| < cfg.batchSize then |st.buffer| else cfg.batchSize;
            var st1 := TakeBatch(cfg, st);
            && st1.buffer == st.buffer[n..] && !st1.phase.NoLoop? && !st1.phase.Between? && !st1.phase.Settling?
            && (st1.phase.Executing? ==> Parted(st.buffer[..n], [], st1.phase.piped))
            && (st1.phase.DeadLettering? ==>
                  st1.phase.malformed != [] && Parted(st.buffer[..n], st1.phase.malformed, st1.phase.piped))
  {
    WritableParts(st.buffer[..Size(cfg, st)]);
  }

  /** Rows parted by what is writable, both parts in the order of the batch. */
  predicate Parted(batch: seq<BufferedRow>, malformed: seq<BufferedRow>, piped: seq<BufferedRow>) {
    if batch == [] then malformed == [] && piped == []
    else if batch[0].row.writable then piped != [] && piped[0] == batch[0] && Parted(batch[1..], malformed, piped[1..])
    else malformed != [] && malformed[0] == batch[0] && Parted(batch[1..], malformed[1..], piped)
  }

  lemma {:induction false} WritableParts(batch: seq<BufferedRow>)
    ensures Parted(batch, Writable(batch, false), Writable(batch, true))
  {
    if batch != [] {
      WritableParts(batch[1..]);
    }
  }

  /** A push that fills a batch starts the loop unless it runs, and stops the timer; any other arms it if it is on. */
  lemma PushedExactly(cfg: Config, st: State, row: Row)
    requires ValidConfig(cfg) && Inv(cfg, st)
    ensures var st1 := Push(cfg, st, row);
            && st1.accepted == st.accepted + [row]
            && (if |st.buffer| + 1 >= cfg.batchSize then !st1.timer && st1.promise && !st1.phase.NoLoop?
                else st1.buffer == st.buffer + [BufferedRow(row, 0)] && st1.timer == (cfg.idleFlushMs > 0)
                     && st1.phase == st.phase && st1.promise == st.promise)
            && (st.promise ==> st1.buffer == st.buffer + [BufferedRow(row, 0)] && st1.phase == st.phase)
  {
  }

  /** No more than a batch is ever in hand. */
  lemma {:induction false} BatchInHand(cfg: Config, states: seq<State>, steps: seq<Step>, n: nat)
    requires ValidConfig(cfg) && Run(cfg, states, steps) && n <= |steps|
    ensures |Unsettled(states[n].phase)| <= cfg.batchSize
  {
    if n > 0 {
      BatchInHand(cfg, states, steps, n - 1);
      InvRun(cfg, states, steps, n - 1);
      StepInHand(cfg, states[n - 1], steps[n - 1]);
    }
  }

  lemma TakenInHand(cfg: Config, st: State)
    ensures |Unsettled(TakeBatch(cfg, st).phase)| <= cfg.batchSize
  {
    WritableSplits(Row("", true), st.buffer[..Size(cfg, st)]);
  }

  lemma {:induction false} EntriesCount(rs: seq<Reply>)
    ensures |Entries(rs)| == |rs|
  {
    if rs != [] {
      EntriesCount(rs[1..]);
    }
  }

  lemma WalkInHand(cfg: Config, st: State, replies: seq<Reply>)
    ensures |Unsettled(Walk(cfg, st, replies).phase)| <= |replies|
  {
    var k := WalkedExactly(cfg, st, replies);
    if k < |replies| { EntriesCount(replies[k + 1..]); }
  }

  lemma StepInHand(cfg: Config, st: State, step: Step)
    requires ValidConfig(cfg) && Inv(cfg, st) && Enabled(st, step) && |Unsettled(st.phase)| <= cfg.batchSize
    ensures |Unsettled(Apply(cfg, st, step).phase)| <= cfg.batchSize
  {
    match step {
      case Replies(outcomes) =>
        WalkInHand(cfg, st.(sent := st.sent + RowsOf(st.phase.piped)), Pair(st.phase.piped, outcomes));
      case DeadLettered =>
        EntriesCount(st.phase.replies);
        WalkInHand(cfg, st.(dead := st.dead + [st.phase.entry.row]), st.phase.replies);
      case Malformed =>
      case PushRow(row) =>
        TakenInHand(cfg, st.(buffer := st.buffer + [BufferedRow(row, 0)], accepted := st.accepted + [row],
            timer := false));
      case LoopTest => TakenInHand(cfg, st);
      case _ => TakenInHand(cfg, st.(timer := false));
    }
  }

  // ------------------------------------------------------------ the worker object

  class Worker {
    const cfg: Config
    var buffer: seq<BufferedRow>
    var phase: Phase
    var promise: bool
    var timer: bool
    var accepted: seq<Row>
    var sent: seq<Row>
    var flushed: seq<Row>
    var dead: seq<Row>

    function View(): State
      reads this
    {
      State(buffer, phase, promise, timer, accepted, sent, flushed, dead)
    }

    constructor (cfg: Config)
      requires ValidConfig(cfg)
      ensures this.cfg == cfg && View() == Start() && Inv(cfg, View())
    {
      this.cfg := cfg;
      buffer, phase, promise, timer, accepted, sent, flushed, dead := [], NoLoop, false, false, [], [], [], [];
    }

    method SplitBatch(batch: seq<BufferedRow>) returns (malformed: seq<BufferedRow>, piped: seq<BufferedRow>)
      ensures malformed == Writable(batch, false) && piped == Writable(batch, true)
    {
      malformed, piped := [], [];
      for i := 0 to |batch|
        invariant malformed == Writable(batch[..i], false) && piped == Writable(batch[..i], true)
      {
        assert batch[..i + 1] == batch[..i] + [batch[i]];
        WritableSnoc(batch[..i], batch[i], true);
        WritableSnoc(batch[..i], batch[i], false);
        if batch[i].row.writable { piped := piped + [batch[i]]; } else { malformed := malformed + [batch[i]]; }
      }
      assert batch[..|batch|] == batch;
    }

    /** The loop's test: the next batch, or the end. */
    method NextBatch()
      modifies this`buffer, this`phase, this`promise
      ensures View() == Recheck(cfg, old(View()))
    {
      if buffer == [] {
        phase, promise := NoLoop, false;
      } else {
        var n := if cfg.batchSize <= |buffer| then cfg.batchSize else |buffer|;
        var malformed, piped := SplitBatch(buffer[..n]);
        buffer := buffer[n..];
        phase := if malformed == [] then Executing(piped) else DeadLettering(malformed, piped);
      }
    }

    method Flush()
      modifies this`buffer, this`phase, this`promise
      ensures View() == ScheduleFlush(cfg, old(View()))
    {
      if promise { return; }
      if buffer != [] { NextBatch(); }
      promise := true;
    }

    method Accept(row: Row)
      modifies this
      ensures View() == Push(cfg, old(View()), row)
    {
      buffer, accepted := buffer + [BufferedRow(row, 0)], accepted + [row];
      if |buffer| >= cfg.batchSize {
        timer := false;
        Flush();
      } else {
        timer := cfg.idleFlushMs > 0;
      }
    }

    method OnIdle()
      modifies this
      ensures View() == IdleFires(cfg, old(View()))
    {
      timer := false;
      if buffer != [] { Flush(); }
    }

    method OnMalformedSettled()
      requires phase.DeadLettering? && phase.malformed != []
      modifies this
      ensures View() == MalformedSettled(cfg, old(View()))
    {
      dead := dead + [phase.malformed[0].row];
      if |phase.malformed| > 1 {
        phase := phase.(malformed := phase.malformed[1..]);
      } else if phase.piped != [] {
        phase := Executing(phase.piped);
      } else {
        phase := Between;
      }
    }

    /** Replies in order: count, put back in front, or stop for a dead letter. */
    method WalkReplies(replies: seq<Reply>)
      modifies this
      ensures View() == Walk(cfg, old(View()), replies)
    {
      var i := 0;
      while i < |replies|
        invariant i <= |replies| && Walk(cfg, View(), replies[i..]) == Walk(cfg, old(View()), replies)
      {
        var r := replies[i];
        assert replies[i..][1..] == replies[i + 1..];
        if r.outcome == Ok {
          flushed := flushed + [r.entry.row];
        } else if GivesUp(cfg, r) {
          phase := Settling(r.entry, replies[i + 1..]);
          return;
        } else {
          buffer := [BufferedRow(r.entry.row, r.entry.attempts + 1)] + buffer;
        }
        i := i + 1;
      }
      phase := Between;
    }

    method OnReplies(outcomes: seq<Outcome>)
      requires phase.Executing? && |outcomes| == |phase.piped|
      modifies this
      ensures View() == Replied(cfg, old(View()), outcomes)
    {
      sent := sent + RowsOf(phase.piped);
      WalkReplies(Pair(phase.piped, outcomes));
    }

    method OnDeadSettled()
      requires phase.Settling?
      modifies this
      ensures View() == DeadSettled(cfg, old(View()))
    {
      var replies := phase.replies;
      dead := dead + [phase.entry.row];
      WalkReplies(replies);
    }

    method Arrive(rows: seq<Row>)
      modifies this
      ensures View() == PushAll(cfg, old(View()), rows)
    {
      for i := 0 to |rows|
        invariant View() == PushAll(cfg, old(View()), rows[..i])
      {
        assert rows[..i + 1][..i] == rows[..i];
        Accept(rows[i]);
      }
      assert rows[..|rows|] == rows;
    }

    /**
     Whatever the pipeline answers, round by round and slot by slot, and whatever rows arrive meanwhile, a drain ends,
     and every row handed over so far is settled, but for rows that arrived after the loop's last test. If every answer
     is Ok, all writable rows are flushed that were not refused before.
     */
    method Drain(answer: (nat, nat) -> Outcome, arrivals: seq<seq<Row>>) returns (rounds: nat)
      requires ValidConfig(cfg) && Inv(cfg, View())
      modifies this
      ensures Inv(cfg, View()) && phase.NoLoop? && !promise && accepted == old(accepted) + Arrived(arrivals, rounds)
      ensures rounds == 0 || At(arrivals, rounds - 1) == [] ==> buffer == []
      ensures cfg.idleFlushMs > 0 || cfg.batchSize == 1 ==> NotStranded(View())
      ensures forall row :: SettledCopies(View(), row) + Buffered(row, buffer)
                         == Located(old(View()), row) + Copies(row, Arrived(arrivals, rounds))
      ensures AllOk(answer) ==>
                forall row: Row | row.writable ::
                  Copies(row, flushed) + Buffered(row, buffer)
                  == Copies(row, old(flushed)) + Owed(old(View()), row) - RefusedInHand(cfg, old(View()), row)
                     + Copies(row, Arrived(arrivals, rounds))
    {
      ghost var before := View();
      rounds := RunLoop(answer, arrivals);
      AllSettled(cfg, before, View(), arrivals, rounds);
      if AllOk(answer) { AllFlushed(cfg, before, View(), arrivals, rounds); }
    }

    method RunLoop(answer: (nat, nat) -> Outcome, arrivals: seq<seq<Row>>) returns (rounds: nat)
      requires ValidConfig(cfg) && Inv(cfg, View())
      modifies this
      ensures Drained(cfg, old(View()), View(), arrivals, rounds) && !promise
      ensures AllOk(answer) ==> SameDeaths(cfg, old(View()), View())
    {
      ghost var before := View();
      StartLoop(arrivals);
      rounds := 0;
      while promise
        invariant Drained(cfg, before, View(), arrivals, rounds)
        invariant AllOk(answer) ==> SameDeaths(cfg, before, View())
        decreases if rounds < |arrivals| then |arrivals| - rounds else 0, Work(cfg, View()), Rank(phase)
      {
        Round(before, arrivals, rounds, answer);
        rounds := rounds + 1;
      }
    }

    method StartLoop(ghost arrivals: seq<seq<Row>>)
      requires ValidConfig(cfg) && Inv(cfg, View())
      modifies this
      ensures Drained(cfg, old(View()), View(), arrivals, 0) && SameDeaths(cfg, old(View()), View())
    {
      DrainStarts(cfg, View(), arrivals);
      OnIdle();
    }

    /** One step of the loop, then the rows that arrive before the next. */
    method Round(ghost before: State, arrivals: seq<seq<Row>>, round: nat, answer: (nat, nat) -> Outcome)
      requires ValidConfig(cfg) && promise && Drained(cfg, before, View(), arrivals, round)
      modifies this
      ensures Drained(cfg, before, View(), arrivals, round + 1)
      ensures AllOk(answer) && SameDeaths(cfg, before, old(View())) ==> SameDeaths(cfg, before, View())
      ensures round >= |arrivals| ==>
                Work(cfg, View()) < old(Work(cfg, View()))
                || (Work(cfg, View()) == old(Work(cfg, View())) && Rank(phase) < old(Rank(phase)))
    {
      LoopStep(round, answer);
      ghost var stepped := View();
      Arrive(At(arrivals, round));
      ArrivedOn(cfg, before, stepped, arrivals, round);
      PushedDeaths(cfg, stepped, At(arrivals, round));
    }

    method LoopStep(round: nat, answer: (nat, nat) -> Outcome)
      requires ValidConfig(cfg) && Inv(cfg, View()) && promise
      modifies this
      ensures Inv(cfg, View()) && (phase.NoLoop? ==> buffer == []) && accepted == old(accepted)
      ensures SameRows(old(View()), View()) && Safe(cfg, old(View()), View())
      ensures AllOk(answer) ==> SameDeaths(cfg, old(View()), View())
      ensures Work(cfg, View()) < old(Work(cfg, View()))
              || (Work(cfg, View()) == old(Work(cfg, View())) && Rank(phase) < old(Rank(phase)))
    {
      ghost var before := View();
      ghost var step;
      if phase.DeadLettering? {
        step := Malformed;
        OnMalformedSettled();
      } else if phase.Executing? {
        var piped := phase.piped;
        var outcomes := seq(|piped|, i requires 0 <= i < |piped| => answer(round, i));
        step := Replies(outcomes);
        OnReplies(outcomes);
      } else if phase.Settling? {
        step := DeadLettered;
        OnDeadSettled();
      } else {
        step := LoopTest;
        NextBatch();
      }
      Stepped(cfg, before, step);
      LoopProgress(cfg, before, step);
      if AllOk(answer) { OkStep(cfg, before, step); }
    }
  }

  /** Every answer, in every round and slot, is Ok. */
  ghost predicate AllOk(answer: (nat, nat) -> Outcome) { forall round, slot :: answer(round, slot) == Ok }

  /** No writable row has been refused or has died in between but those refused before. */
  ghost predicate SameDeaths(cfg: Config, st: State, st': State) {
    forall row: Row | row.writable ::
      Copies(row, st'.dead) + RefusedInHand(cfg, st', row) == Copies(row, st.dead) + RefusedInHand(cfg, st, row)
  }

  lemma OkStep(cfg: Config, st: State, step: Step)
    requires ValidConfig(cfg) && Inv(cfg, st) && Enabled(st, step)
    requires step.Replies? ==> forall i | 0 <= i < |step.outcomes| :: step.outcomes[i] == Ok
    ensures SameDeaths(cfg, st, Apply(cfg, st, step))
  {
    forall row: Row | row.writable
      ensures Copies(row, Apply(cfg, st, step).dead) + RefusedInHand(cfg, Apply(cfg, st, step), row)
              == Copies(row, st.dead) + RefusedInHand(cfg, st, row)
    {
      StepJudges(cfg, st, step, row);
      if step.Replies? { NoRefusals(cfg, row, st.phase.piped, step.outcomes); }
    }
  }

  lemma {:induction false} PushedDeaths(cfg: Config, st: State, rows: seq<Row>)
    requires ValidConfig(cfg) && Inv(cfg, st)
    ensures SameDeaths(cfg, st, PushAll(cfg, st, rows))
  {
    if rows != [] {
      var before, last := rows[..|rows| - 1], rows[|rows| - 1];
      PushedDeaths(cfg, st, before);
      PushedAll(cfg, st, before);
      OkStep(cfg, PushAll(cfg, st, before), PushRow(last));
    }
  }

  lemma AllFlushed(cfg: Config, before: State, st: State, arrivals: seq<seq<Row>>, rounds: nat)
    requires Drained(cfg, before, st, arrivals, rounds) && !st.promise && SameDeaths(cfg, before, st)
    ensures forall row: Row | row.writable ::
              Copies(row, st.flushed) + Buffered(row, st.buffer)
              == Copies(row, before.flushed) + Owed(before, row) - RefusedInHand(cfg, before, row)
                 + Copies(row, Arrived(arrivals, rounds))
  {
    forall row: Row | row.writable
      ensures Copies(row, st.flushed) + Buffered(row, st.buffer)
              == Copies(row, before.flushed) + Owed(before, row) - RefusedInHand(cfg, before, row)
                 + Copies(row, Arrived(arrivals, rounds))
    {
      assert Located(st, row) == Located(before, row) + Copies(row, Arrived(arrivals, rounds));
      assert RefusedInHand(cfg, st, row) == 0;
    }
  }

  /** Under a safe configuration rows do not get stranded. */
  ghost predicate Safe(cfg: Config, st: State, st': State) {
    cfg.idleFlushMs > 0 || cfg.batchSize == 1 ==> (NotStranded(st) ==> NotStranded(st'))
  }

  ghost predicate SameRows(st: State, st': State) { forall row :: Located(st', row) == Located(st, row) }

  lemma Stepped(cfg: Config, st: State, step: Step)
    requires ValidConfig(cfg) && Inv(cfg, st) && Enabled(st, step) && !step.PushRow?
    ensures var st1 := Apply(cfg, st, step);
            Inv(cfg, st1) && SameRows(st, st1) && st1.accepted == st.accepted
            && (!st.phase.NoLoop? || step.DrainCall? ==> (st1.phase.NoLoop? ==> st1.buffer == [])) && Safe(cfg, st, st1)
  {
    StepInv(cfg, st, step);
    StepConserves(cfg, st, step, Row("", true));
    forall row ensures Located(Apply(cfg, st, step), row) == Located(st, row) { StepConserves(cfg, st, step, row); }
    if step.DrainCall? && st.buffer != [] { ScheduleInv(cfg, st.(timer := false)); }
  }

  function PushAll(cfg: Config, st: State, rows: seq<Row>): State {
    if rows == [] then st else Push(cfg, PushAll(cfg, st, rows[..|rows| - 1]), rows[|rows| - 1])
  }

  function At(arrivals: seq<seq<Row>>, round: nat): seq<Row> { if round < |arrivals| then arrivals[round] else [] }

  /** The rows of the first rounds. */
  function Arrived(arrivals: seq<seq<Row>>, rounds: nat): seq<Row> {
    if rounds == 0 then [] else Arrived(arrivals, rounds - 1) + At(arrivals, rounds - 1)
  }

  ghost predicate MoreRows(st: State, st': State, more: seq<Row>) {
    forall row :: Located(st', row) == Located(st, row) + Copies(row, more)
  }

  lemma PushedOne(cfg: Config, st: State, mid: State, before: seq<Row>, last: Row)
    requires ValidConfig(cfg) && Inv(cfg, mid) && MoreRows(st, mid, before) && Safe(cfg, st, mid)
    ensures var st1 := Push(cfg, mid, last);
            Inv(cfg, st1) && st1.accepted == mid.accepted + [last] && MoreRows(st, st1, before + [last])
            && Safe(cfg, st, st1)
  {
    StepInv(cfg, mid, PushRow(last));
    StepConserves(cfg, mid, PushRow(last), last);
    forall row ensures Located(Push(cfg, mid, last), row) == Located(st, row) + Copies(row, before + [last]) {
      StepConserves(cfg, mid, PushRow(last), row);
      CopiesSnoc(row, before, last);
    }
  }

  lemma {:induction false} PushedAll(cfg: Config, st: State, rows: seq<Row>)
    requires ValidConfig(cfg) && Inv(cfg, st)
    ensures var st1 := PushAll(cfg, st, rows);
            Inv(cfg, st1) && st1.accepted == st.accepted + rows && MoreRows(st, st1, rows) && Safe(cfg, st, st1)
  {
    if rows == [] {
      assert st.accepted + [] == st.accepted;
    } else {
      var before, last := rows[..|rows| - 1], rows[|rows| - 1];
      PushedAll(cfg, st, before);
      PushedOne(cfg, st, PushAll(cfg, st, before), before, last);
      assert rows == before + [last];
    }
  }

  lemma {:induction false} CopiesAppend(row: Row, a: seq<Row>, b: seq<Row>)
    ensures Copies(row, a + b) == Copies(row, a) + Copies(row, b)
  {
    if a == [] {
      assert a + b == b;
    } else {
      assert (a + b)[1..] == a[1..] + b;
      CopiesAppend(row, a[1..], b);
    }
  }

  /** The state of a drain after some rounds. */
  ghost predicate Drained(cfg: Config, before: State, st: State, arrivals: seq<seq<Row>>, rounds: nat) {
    && Inv(cfg, st) && st.accepted == before.accepted + Arrived(arrivals, rounds)
    && (st.phase.NoLoop? && (rounds == 0 || At(arrivals, rounds - 1) == []) ==> st.buffer == [])
    && (cfg.idleFlushMs > 0 || cfg.batchSize == 1 ==> NotStranded(st))
    && MoreRows(before, st, Arrived(arrivals, rounds))
  }

  /** One round of a drain: a step of the loop, then the rows that arrived. */
  lemma ArrivedOn(cfg: Config, before: State, st: State, arrivals: seq<seq<Row>>, round: nat)
    requires ValidConfig(cfg) && Inv(cfg, st) && MoreRows(before, st, Arrived(arrivals, round))
    requires st.accepted == before.accepted + Arrived(arrivals, round)
    ensures var st1 := PushAll(cfg, st, At(arrivals, round));
            && Inv(cfg, st1) && MoreRows(before, st1, Arrived(arrivals, round + 1))
            && st1.accepted == before.accepted + Arrived(arrivals, round + 1)
            && (At(arrivals, round) == [] ==> st1 == st)
            && Safe(cfg, st, st1)
  {
    PushedAll(cfg, st, At(arrivals, round));
    forall row
      ensures Copies(row, Arrived(arrivals, round + 1))
              == Copies(row, Arrived(arrivals, round)) + Copies(row, At(arrivals, round))
    {
      CopiesAppend(row, Arrived(arrivals, round), At(arrivals, round));
    }
  }

  lemma DrainStarts(cfg: Config, st: State, arrivals: seq<seq<Row>>)
    requires ValidConfig(cfg) && Inv(cfg, st)
    ensures Drained(cfg, st, DrainRequested(cfg, st), arrivals, 0)
  {
    Stepped(cfg, st, DrainCall);
    assert st.accepted + [] == st.accepted;
  }

  lemma AllSettled(cfg: Config, before: State, st: State, arrivals: seq<seq<Row>>, rounds: nat)
    requires Drained(cfg, before, st, arrivals, rounds) && !st.promise
    ensures forall row ::
            SettledCopies(st, row) + Buffered(row, st.buffer)
            == Located(before, row) + Copies(row, Arrived(arrivals, rounds))
  {
    forall row ensures Located(st, row) == SettledCopies(st, row) + Buffered(row, st.buffer) { }
  }
}
