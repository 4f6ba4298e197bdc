/**
 The api's runtime connection pool: a circuit breaker per member and round-robin
 acquisition over the members whose circuit is not open. Sockets are left out; timers and
 command outcomes are events.
 */
module Pool {
  import opened Listing
  import opened Sums

  datatype Circuit = Closed | Open | HalfOpen

  /** `failedProbes` counts the half-open circuits that reopened since the circuit last left closed. */
  datatype Member = Member(
    circuit: Circuit, failures: nat, openedAt: int, backoffMs: nat, probeTimer: bool, failedProbes: nat)

  datatype Config = Config(threshold: nat, initialMs: nat, capMs: nat)

  function NewMember(): Member { Member(Closed, 0, 0, 0, false, 0) }

  // ------------------------------------------------------------ transitions

  /** A probe is scheduled only for a positive delay. */
  function TransitionCircuit(cfg: Config, m: Member, next: Circuit, now: int): Member {
    if m.circuit == next then m
    else match next
      case Open =>
        var again := m.circuit == HalfOpen && m.backoffMs > 0;
        var delay := if again then MinInt(m.backoffMs * 2, cfg.capMs) else cfg.initialMs;
        m.(circuit := Open, openedAt := now, backoffMs := delay, probeTimer := delay > 0,
           failedProbes := if m.circuit == HalfOpen then m.failedProbes + 1 else 0)
      case Closed => m.(circuit := Closed, openedAt := 0, probeTimer := false, backoffMs := 0)
      case HalfOpen => m.(circuit := HalfOpen, probeTimer := false)
  }

  function NoteFailure(cfg: Config, m: Member, fatal: bool, now: int): Member {
    var m1 := m.(failures := m.failures + 1);
    if m1.circuit == HalfOpen || fatal || m1.failures >= cfg.threshold then TransitionCircuit(cfg, m1, Open, now)
    else m1
  }

  function NoteSuccess(cfg: Config, m: Member, now: int): Member {
    (if m.circuit == HalfOpen then TransitionCircuit(cfg, m, Closed, now) else m).(failures := 0)
  }

  /** The probe timer fires: the slot goes half-open and its next command decides. */
  function ProbeFires(cfg: Config, m: Member, now: int): Member {
    var m1 := m.(probeTimer := false);
    if m1.circuit == Open then TransitionCircuit(cfg, m1, HalfOpen, now) else m1
  }

  /** A target swap starts the member over. */
  function Reset(m: Member): Member {
    m.(circuit := Closed, failures := 0, openedAt := 0, probeTimer := false, backoffMs := 0)
  }

  datatype Event = Failure(fatal: bool) | Success | Probe | Promotion | Swap

  predicate Enabled(m: Member, e: Event) {
    match e
    case Probe => m.probeTimer
    case Promotion => m.circuit == Open
    case _ => true
  }

  function Apply(cfg: Config, m: Member, e: Event, now: int): Member {
    match e
    case Failure(fatal) => NoteFailure(cfg, m, fatal, now)
    case Success => NoteSuccess(cfg, m, now)
    case Probe => ProbeFires(cfg, m, now)
    case Promotion => TransitionCircuit(cfg, m, HalfOpen, now)
    case Swap => Reset(m)
  }

  // ------------------------------------------------------------ the breaker's invariant

  function Pow2(k: nat): nat { if k == 0 then 1 else 2 * Pow2(k - 1) }

  /** The delay after k failed probes. */
  function Delay(cfg: Config, k: nat): nat { MinInt(cfg.capMs, cfg.initialMs * Pow2(k)) }

  ghost predicate Inv(cfg: Config, m: Member) {
    match m.circuit
    case Closed => !m.probeTimer && m.backoffMs == 0 && m.failures < cfg.threshold
    case HalfOpen => !m.probeTimer && m.backoffMs == Delay(cfg, m.failedProbes)
    case Open => m.probeTimer && m.backoffMs == Delay(cfg, m.failedProbes)
  }

  predicate SoundConfig(cfg: Config) { cfg.threshold >= 1 && 0 < cfg.initialMs <= cfg.capMs }

  lemma DelayDoubles(cfg: Config, k: nat)
    requires 0 < cfg.initialMs <= cfg.capMs
    ensures Delay(cfg, 0) == cfg.initialMs
    ensures Delay(cfg, k) > 0 && MinInt(Delay(cfg, k) * 2, cfg.capMs) == Delay(cfg, k + 1)
  {
    PowerPositive(k);
    var p := cfg.initialMs * Pow2(k);
    assert p >= 1;
    assert cfg.initialMs * Pow2(k + 1) == 2 * p;
  }

  lemma {:induction false} PowerPositive(k: nat)
    ensures Pow2(k) >= 1
  {
    if k > 0 { PowerPositive(k - 1); }
  }

  lemma StepInv(cfg: Config, m: Member, e: Event, now: int)
    requires SoundConfig(cfg) && Inv(cfg, m) && Enabled(m, e)
    ensures Inv(cfg, Apply(cfg, m, e, now))
  {
    DelayDoubles(cfg, 0);
    DelayDoubles(cfg, m.failedProbes);
  }

  ghost predicate Run(cfg: Config, states: seq<Member>, events: seq<Event>, clock: seq<int>) {
    && |states| == |events| + 1 && |clock| == |events| && states[0] == NewMember()
    && forall i | 0 <= i < |events| ::
       Enabled(states[i], events[i]) && states[i + 1] == Apply(cfg, states[i], events[i], clock[i])
  }

  lemma {:induction false} InvRun(cfg: Config, states: seq<Member>, events: seq<Event>, clock: seq<int>, n: nat)
    requires SoundConfig(cfg) && Run(cfg, states, events, clock) && n <= |events|
    ensures Inv(cfg, states[n])
  {
    if n > 0 {
      InvRun(cfg, states, events, clock, n - 1);
      StepInv(cfg, states[n - 1], events[n - 1], clock[n - 1]);
    }
  }

  ghost predicate AlwaysInv(cfg: Config) {
    forall states, events, clock, n: nat | Run(cfg, states, events, clock) && n <= |events| :: Inv(cfg, states[n])
  }

  /**
   Over every event sequence the breaker keeps its invariant iff the threshold is at least one and 0 < initial <=
   cap.
   */
  lemma BreakerSoundExactly(cfg: Config)
    ensures AlwaysInv(cfg) <==> cfg.threshold >= 1 && 0 < cfg.initialMs <= cfg.capMs
  {
    if SoundConfig(cfg) {
      forall states, events, clock, n: nat | Run(cfg, states, events, clock) && n <= |events|
        ensures Inv(cfg, states[n])
      {
        InvRun(cfg, states, events, clock, n);
      }
    } else if cfg.threshold == 0 {
      assert Run(cfg, [NewMember()], [], []) && !Inv(cfg, [NewMember()][0]);
    } else {
      var tripped := Apply(cfg, NewMember(), Failure(true), 0);
      var states, events, clock := [NewMember(), tripped], [Failure(true)], [0];
      assert tripped.backoffMs == cfg.initialMs && tripped.failedProbes == 0;
      assert Run(cfg, states, events, clock) && !Inv(cfg, states[1]);
    }
  }

  // ------------------------------------------------------------ what the fields mean, over every run

  /** Failures since the last success or swap. */
  function Streak(events: seq<Event>): nat {
    if events == [] then 0
    else match events[|events| - 1]
      case Failure(_) => Streak(events[..|events| - 1]) + 1
      case Success => 0
      case Swap => 0
      case _ => Streak(events[..|events| - 1])
  }

  /** Which events open a circuit, and which leave it closed. */
  lemma CircuitMoves(cfg: Config, m: Member, e: Event, now: int)
    requires Enabled(m, e)
    ensures Apply(cfg, m, e, now).circuit == Open
            <==> match e
                 case Failure(fatal) => m.circuit != Closed || fatal || m.failures + 1 >= cfg.threshold
                 case Success => m.circuit == Open
                 case _ => false
    ensures Apply(cfg, m, e, now).circuit == Closed
            <==> match e
                 case Failure(fatal) => m.circuit == Closed && !fatal && m.failures + 1 < cfg.threshold
                 case Success => m.circuit != Open
                 case Swap => true
                 case Probe => m.circuit == Closed
                 case Promotion => false
  {
  }

  lemma {:induction false} FailuresAreStreak(cfg: Config, states: seq<Member>, events: seq<Event>, clock: seq<int>,
      n: nat)
    requires Run(cfg, states, events, clock) && n <= |events|
    ensures states[n].failures == Streak(events[..n])
  {
    if n > 0 {
      FailuresAreStreak(cfg, states, events, clock, n - 1);
      assert events[..n][..n - 1] == events[..n - 1];
    }
  }

  /**
   The opening time of a circuit that is not closed is that of the event that last opened it; that of a closed one
   is zero.
   */
  lemma {:induction false} OpenedThen(cfg: Config, states: seq<Member>, events: seq<Event>, clock: seq<int>, n: nat)
    returns (k: nat)
    requires Run(cfg, states, events, clock) && n <= |events|
    ensures states[n].circuit == Closed ==> states[n].openedAt == 0
    ensures states[n].circuit != Closed ==>
              && k < n && states[n].openedAt == clock[k] && states[k].circuit != Open && states[k + 1].circuit == Open
              && (forall i | k < i <= n :: states[i].circuit != Closed)
              && forall i | k < i < n :: states[i].circuit == Open || states[i + 1].circuit != Open
  {
    k := 0;
    if n > 0 {
      CircuitMoves(cfg, states[n - 1], events[n - 1], clock[n - 1]);
      k := OpenedThen(cfg, states, events, clock, n - 1);
      if states[n - 1].circuit != Open && states[n].circuit == Open {
        k := n - 1;
      }
    }
  }

  // ------------------------------------------------------------ the member object

  class PoolMember {
    const cfg: Config
    var circuitState: Circuit
    var consecutiveFailures: nat
    var openedAt: int
    var currentBackoffMs: nat
    var probeTimer: bool
    ghost var failedProbes: nat

    ghost function View(): Member
      reads this
    {
      Member(circuitState, consecutiveFailures, openedAt, currentBackoffMs, probeTimer, failedProbes)
    }

    ghost predicate Valid()
      reads this
    {
      SoundConfig(cfg) && Inv(cfg, View())
    }

    constructor (cfg: Config)
      ensures this.cfg == cfg && View() == NewMember() && (SoundConfig(cfg) ==> Valid())
    {
      this.cfg := cfg;
      circuitState, consecutiveFailures, openedAt := Closed, 0, 0;
      currentBackoffMs, probeTimer, failedProbes := 0, false, 0;
    }

    method CancelScheduledProbe()
      modifies this`probeTimer
      ensures !probeTimer
    {
      probeTimer := false;
    }

    method ScheduleHalfOpenProbe()
      modifies this`probeTimer
      ensures probeTimer == (currentBackoffMs > 0)
    {
      CancelScheduledProbe();
      if currentBackoffMs <= 0 { return; }
      probeTimer := true;
    }

    method Transition(next: Circuit, now: int)
      modifies this
      ensures View() == TransitionCircuit(cfg, old(View()), next, now)
    {
      var prev := circuitState;
      if prev == next { return; }
      circuitState := next;
      match next {
        case Open =>
          openedAt := now;
          failedProbes := if prev == HalfOpen then failedProbes + 1 else 0;
          if prev == HalfOpen && currentBackoffMs > 0 {
            currentBackoffMs := MinInt(currentBackoffMs * 2, cfg.capMs);
          } else {
            currentBackoffMs := cfg.initialMs;
          }
          ScheduleHalfOpenProbe();
        case Closed =>
          openedAt := 0;
          CancelScheduledProbe();
          currentBackoffMs := 0;
        case HalfOpen =>
          CancelScheduledProbe();
      }
    }

    method OnFailure(fatal: bool, now: int)
      modifies this
      ensures View() == NoteFailure(cfg, old(View()), fatal, now) && (old(Valid()) ==> Valid())
    {
      if Valid() { StepInv(cfg, View(), Failure(fatal), now); }
      consecutiveFailures := consecutiveFailures + 1;
      if circuitState == HalfOpen {
        Transition(Open, now);
        return;
      }
      if fatal {
        Transition(Open, now);
        return;
      }
      if consecutiveFailures >= cfg.threshold {
        Transition(Open, now);
      }
    }

    method OnSuccess(now: int)
      modifies this
      ensures View() == NoteSuccess(cfg, old(View()), now) && (old(Valid()) ==> Valid())
    {
      if Valid() { StepInv(cfg, View(), Success, now); }
      if circuitState == HalfOpen {
        Transition(Closed, now);
      }
      consecutiveFailures := 0;
    }

    method OnProbeTimer(now: int)
      requires probeTimer
      modifies this
      ensures View() == ProbeFires(cfg, old(View()), now) && (old(Valid()) ==> Valid())
    {
      if Valid() { StepInv(cfg, View(), Probe, now); }
      probeTimer := false;
      if circuitState != Open { return; }
      Transition(HalfOpen, now);
    }

    method OnSwap()
      modifies this
      ensures View() == Reset(old(View())) && (old(Valid()) ==> Valid())
    {
      if Valid() { StepInv(cfg, View(), Swap, 0); }
      circuitState, consecutiveFailures, openedAt := Closed, 0, 0;
      CancelScheduledProbe();
      currentBackoffMs := 0;
    }
  }

  // ------------------------------------------------------------ round robin

  /** The slots in the order the acquisition walks them from `start`. */
  function Ring(n: nat, start: nat): (r: seq<nat>)
    requires start < n
    ensures |r| == n && forall k | 0 <= k < n :: r[k] == (if start + k < n then start + k else start + k - n)
  {
    seq(n, k requires 0 <= k < n => if start + k < n then start + k else start + k - n)
  }

  function Usable(members: seq<Member>, slots: seq<nat>): (r: seq<nat>)
    requires forall k | 0 <= k < |slots| :: slots[k] < |members|
    ensures forall k | 0 <= k < |r| :: r[k] < |members|
  {
    if slots == [] then []
    else if members[slots[0]].circuit != Open then [slots[0]] + Usable(members, slots[1..])
    else Usable(members, slots[1..])
  }

  /** The usable slots in walking order. */
  function Queue(members: seq<Member>, start: nat): seq<nat>
    requires start < |members|
  {
    Usable(members, Ring(|members|, start))
  }

  lemma {:induction false} UsableAppend(members: seq<Member>, a: seq<nat>, b: seq<nat>)
    requires forall k | 0 <= k < |a| :: a[k] < |members|
    requires forall k | 0 <= k < |b| :: b[k] < |members|
    ensures forall k | 0 <= k < |a + b| :: (a + b)[k] < |members|
    ensures Usable(members, a + b) == Usable(members, a) + Usable(members, b)
  {
    if a == [] {
      assert a + b == b;
    } else {
      UsableAppend(members, a[1..], b);
      assert (a + b)[1..] == a[1..] + b;
    }
  }

  lemma {:induction false} UsableNone(members: seq<Member>, slots: seq<nat>)
    requires forall k | 0 <= k < |slots| :: slots[k] < |members| && members[slots[k]].circuit == Open
    ensures Usable(members, slots) == []
  {
    if slots != [] {
      UsableNone(members, slots[1..]);
    }
  }

  lemma {:induction false} UsableMembers(members: seq<Member>, slots: seq<nat>)
    requires forall k | 0 <= k < |slots| :: slots[k] < |members|
    requires forall i, j | 0 <= i < j < |slots| :: slots[i] != slots[j]
    ensures forall s :: s in Usable(members, slots) <==> s in slots && members[s].circuit != Open
    ensures forall i, j | 0 <= i < j < |Usable(members, slots)| ::
            Usable(members, slots)[i] != Usable(members, slots)[j]
  {
    if slots != [] {
      UsableMembers(members, slots[1..]);
      assert slots == [slots[0]] + slots[1..];
      assert slots[0] !in slots[1..];
    }
  }

  function After(n: nat, slot: nat): nat
    requires slot < n
  {
    (slot + 1) % n
  }

  lemma WrapsAround(x: nat, n: nat)
    requires 0 < n && x < 2 * n
    ensures x % n == if x < n then x else x - n
  {
    if x >= n { assert x == 1 * n + (x - n); }
  }

  /** Moving past slot d of the walk turns the ring by d + 1. */
  lemma RingTurns(n: nat, start: nat, d: nat)
    requires start < n && d < n
    ensures var ring := Ring(n, start); Ring(n, After(n, ring[d])) == ring[d + 1..] + ring[..d + 1]
  {
    var ring := Ring(n, start);
    WrapsAround(ring[d] + 1, n);
    var turned, other := Ring(n, After(n, ring[d])), ring[d + 1..] + ring[..d + 1];
    forall k | 0 <= k < n ensures turned[k] == other[k] {
      if k < n - d - 1 { assert other[k] == ring[d + 1 + k]; } else { assert other[k] == ring[k - (n - d - 1)]; }
    }
  }

  /** Taking the first usable slot moves it to the back of the queue. */
  lemma QueueTurns(members: seq<Member>, start: nat, d: nat)
    requires start < |members| && d < |members|
    requires var ring := Ring(|members|, start);
             members[ring[d]].circuit != Open && forall k | 0 <= k < d :: members[ring[k]].circuit == Open
    ensures var slot, q := Ring(|members|, start)[d], Queue(members, start);
            q != [] && q[0] == slot && Queue(members, After(|members|, slot)) == q[1..] + [q[0]]
  {
    var ring := Ring(|members|, start);
    var slot, front, back := ring[d], ring[..d], ring[d + 1..];
    RingTurns(|members|, start, d);
    UsableAround(members, front, slot, back);
    assert ring == front + [slot] + back;
    assert ring[..d + 1] == front + [slot];
  }

  lemma UsableAround(members: seq<Member>, front: seq<nat>, slot: nat, back: seq<nat>)
    requires forall k | 0 <= k < |front| :: front[k] < |members| && members[front[k]].circuit == Open
    requires slot < |members| && members[slot].circuit != Open
    requires forall k | 0 <= k < |back| :: back[k] < |members|
    ensures forall k | 0 <= k < |front + [slot] + back| :: (front + [slot] + back)[k] < |members|
    ensures forall k | 0 <= k < |back + (front + [slot])| :: (back + (front + [slot]))[k] < |members|
    ensures Usable(members, front + [slot] + back) == [slot] + Usable(members, back)
    ensures Usable(members, back + (front + [slot])) == Usable(members, back) + [slot]
  {
    UsableNone(members, front);
    assert Usable(members, [slot]) == [slot];
    UsableAppend(members, front, [slot]);
    UsableAppend(members, front + [slot], back);
    UsableAppend(members, back, front + [slot]);
  }

  lemma {:induction false} FirstUsable(members: seq<Member>, slots: seq<nat>) returns (d: nat)
    requires forall k | 0 <= k < |slots| :: slots[k] < |members|
    requires Usable(members, slots) != []
    ensures d < |slots| && members[slots[d]].circuit != Open
            && forall k | 0 <= k < d :: members[slots[k]].circuit == Open
  {
    d := 0;
    if members[slots[0]].circuit == Open {
      d := FirstUsable(members, slots[1..]);
      d := d + 1;
    }
  }

  function Next(members: seq<Member>, start: nat): (r: nat)
    requires start < |members| && Queue(members, start) != []
    ensures r < |members|
  {
    After(|members|, Queue(members, start)[0])
  }

  lemma NextTurns(members: seq<Member>, start: nat)
    requires start < |members| && Queue(members, start) != []
    ensures var q := Queue(members, start); Queue(members, Next(members, start)) == q[1..] + [q[0]]
  {
    var d := FirstUsable(members, Ring(|members|, start));
    QueueTurns(members, start, d);
  }

  /** The slots of k acquisitions in a row, the members' circuits staying as they are. */
  function Picks(members: seq<Member>, start: nat, k: nat): seq<nat>
    requires start < |members|
    decreases k
  {
    if k == 0 || Queue(members, start) == [] then []
    else [Queue(members, start)[0]] + Picks(members, Next(members, start), k - 1)
  }

  lemma {:induction false} PicksFollowQueue(members: seq<Member>, start: nat, k: nat)
    requires start < |members| && k <= |Queue(members, start)|
    ensures Picks(members, start, k) == Queue(members, start)[..k]
    decreases k
  {
    if k > 0 {
      var q := Queue(members, start);
      NextTurns(members, start);
      PicksFollowQueue(members, Next(members, start), k - 1);
      assert (q[1..] + [q[0]])[..k - 1] == q[1..k];
    }
  }

  /** As many acquisitions as there are usable slots visit each of them exactly once, wherever they start. */
  lemma RoundRobin(members: seq<Member>, start: nat, slot: nat)
    requires start < |members|
    ensures var picks := Picks(members, start, |Queue(members, start)|);
            multiset(picks)[slot] == if slot < |members| && members[slot].circuit != Open then 1 else 0
  {
    var q, ring := Queue(members, start), Ring(|members|, start);
    PicksFollowQueue(members, start, |q|);
    assert q[..|q|] == q;
    UsableMembers(members, ring);
    if slot < |members| {
      assert ring[if slot >= start then slot - start else slot + |members| - start] == slot;
    }
    OnceOrNever(q, slot);
  }

  // ------------------------------------------------------------ the pool object

  class Slots {
    var members: seq<Member>
    var rrIndex: nat

    constructor (size: nat)
      ensures |members| == size && rrIndex == 0 && forall i | 0 <= i < size :: members[i] == NewMember()
    {
      members, rrIndex := seq(size, _ => NewMember()), 0;
    }

    /** The next slot that is not open; if there is none, the one open the longest goes half-open. */
    method Acquire(cfg: Config, now: int) returns (chosen: nat)
      requires rrIndex < |members|
      modifies this
      ensures chosen < |members| == |old(members)| && rrIndex == After(|members|, chosen)
      ensures var q := Queue(old(members), old(rrIndex));
              if q != [] then chosen == q[0] && members == old(members)
              else && members == old(members)[chosen := TransitionCircuit(cfg, old(members)[chosen], HalfOpen, now)]
                   && forall j | 0 <= j < |members| :: old(members)[chosen].openedAt <= old(members)[j].openedAt
    {
      var total := |members|;
      ghost var ring := Ring(total, rrIndex);
      var step, found := 0, false;
      chosen := 0;
      while step < total && !found
        invariant members == old(members) && rrIndex == old(rrIndex) && step <= total && chosen < total
        invariant forall k | 0 <= k < step :: members[ring[k]].circuit == Open
        invariant found ==> step < total && chosen == ring[step] && members[chosen].circuit != Open
        decreases total - step, !found
      {
        WrapsAround(rrIndex + step, total);
        var i := (rrIndex + step) % total;
        if members[i].circuit != Open {
          chosen, found := i, true;
        } else {
          step := step + 1;
        }
      }
      if found {
        QueueTurns(members, rrIndex, step);
      } else {
        UsableNone(members, ring);
        chosen := PromoteOldest(cfg, now);
      }
      rrIndex := (chosen + 1) % total;
    }

    method PromoteOldest(cfg: Config, now: int) returns (oldest: nat)
      requires |members| > 0
      modifies this`members
      ensures oldest < |old(members)|
      ensures members == old(members)[oldest := TransitionCircuit(cfg, old(members)[oldest], HalfOpen, now)]
      ensures forall j | 0 <= j < |members| :: old(members)[oldest].openedAt <= old(members)[j].openedAt
    {
      oldest := 0;
      for i := 1 to |members|
        invariant oldest < |members| && members == old(members)
        invariant forall j | 0 <= j < i :: members[oldest].openedAt <= members[j].openedAt
      {
        if members[i].openedAt < members[oldest].openedAt { oldest := i; }
      }
      members := members[oldest := TransitionCircuit(cfg, members[oldest], HalfOpen, now)];
    }
  }
}
