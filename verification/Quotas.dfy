/**
 The row generator's coverage floor: how planned rows are split over sensitivity types and how the quotas are used up,
 the biased pick without a plan, and the plain uniform pick while the floor is off.
 */
module Quotas {
  import opened Sums

  function Sum(xs: seq<int>): int { if xs == [] then 0 else xs[0] + Sum(xs[1..]) }

  lemma {:induction false} SumUpdate(xs: seq<int>, i: nat, v: int)
    requires i < |xs|
    ensures Sum(xs[i := v]) == Sum(xs) - xs[i] + v
  {
    if i == 0 {
      assert xs[i := v][1..] == xs[1..];
    } else {
      assert xs[i := v][1..] == xs[1..][i - 1 := v];
      SumUpdate(xs[1..], i - 1, v);
    }
  }

  lemma {:induction false} SumSnoc(xs: seq<int>, x: int)
    ensures Sum(xs + [x]) == Sum(xs) + x
  {
    if xs == [] {
      assert xs + [x] == [x];
    } else {
      assert (xs + [x])[1..] == xs[1..] + [x];
      SumSnoc(xs[1..], x);
    }
  }

  // ------------------------------------------------------------ the split

  function EvenSplit(rows: nat, n: nat): seq<int>
    requires n > 0
  {
    seq(n, i requires 0 <= i < n => EvenShare(rows, n, i))
  }

  lemma {:induction false} EvenPrefix(rows: nat, n: nat, k: nat)
    requires k <= n && n > 0
    ensures Sum(EvenSplit(rows, n)[..k]) == rows / n * k + MinInt(k, rows % n)
  {
    if k > 0 {
      EvenPrefix(rows, n, k - 1);
      assert EvenSplit(rows, n)[..k] == EvenSplit(rows, n)[..k - 1] + [EvenShare(rows, n, k - 1)];
      SumSnoc(EvenSplit(rows, n)[..k - 1], EvenShare(rows, n, k - 1));
      assert rows / n * k == rows / n * (k - 1) + rows / n;
    }
  }

  lemma EvenSplitSums(rows: nat, n: nat)
    requires n > 0
    ensures Sum(EvenSplit(rows, n)) == rows
  {
    EvenPrefix(rows, n, n);
    assert EvenSplit(rows, n)[..n] == EvenSplit(rows, n);
  }

  /** Raise shares below the floor by taking from the largest. */
  method RaiseToFloor(quotas: array<int>, floor: int)
    modifies quotas
    ensures Sum(quotas[..]) == old(Sum(quotas[..]))
    ensures forall i | 0 <= i < quotas.Length :: quotas[i] >= MinInt(old(quotas[i]), floor)
    ensures (forall i | 0 <= i < quotas.Length :: old(quotas[i]) >= floor) ==> quotas[..] == old(quotas[..])
  {
    for pass := 0 to quotas.Length + 1
      invariant Sum(quotas[..]) == old(Sum(quotas[..]))
      invariant forall i | 0 <= i < quotas.Length :: quotas[i] >= MinInt(old(quotas[i]), floor)
      invariant (forall i | 0 <= i < quotas.Length :: old(quotas[i]) >= floor) ==> quotas[..] == old(quotas[..])
    {
      var need := FirstBelow(quotas, floor);
      if need < 0 { break; }
      var steal := LargestAbove(quotas, need, floor);
      if steal < 0 { break; }
      var transfer := MinInt(floor - quotas[need], quotas[steal] - floor);
      if transfer <= 0 { break; }
      Transfer(quotas, steal, need, transfer);
    }
  }

  method Transfer(quotas: array<int>, from: nat, to: nat, amount: int)
    requires from < quotas.Length && to < quotas.Length && from != to
    modifies quotas
    ensures quotas[..] == old(quotas[..])[to := old(quotas[to]) + amount][from := old(quotas[from]) - amount]
    ensures Sum(quotas[..]) == old(Sum(quotas[..]))
  {
    ghost var before := quotas[..];
    SumUpdate(before, to, before[to] + amount);
    SumUpdate(before[to := before[to] + amount], from, before[from] - amount);
    quotas[to] := quotas[to] + amount;
    quotas[from] := quotas[from] - amount;
    assert quotas[..] == before[to := before[to] + amount][from := before[from] - amount];
  }

  method FirstBelow(quotas: array<int>, floor: int) returns (need: int)
    ensures -1 <= need < quotas.Length
    ensures need >= 0 ==> quotas[need] < floor
    ensures need < 0 ==> forall i | 0 <= i < quotas.Length :: quotas[i] >= floor
  {
    for i := 0 to quotas.Length
      invariant forall j | 0 <= j < i :: quotas[j] >= floor
    {
      if quotas[i] < floor { return i; }
    }
    return -1;
  }

  method LargestAbove(quotas: array<int>, need: int, floor: int) returns (steal: int)
    ensures -1 <= steal < quotas.Length && (steal >= 0 ==> steal != need && quotas[steal] > floor)
    ensures forall i | 0 <= i < quotas.Length && i != need :: quotas[i] <= if steal >= 0 then quotas[steal] else floor
  {
    steal := -1;
    var most := floor;
    for i := 0 to quotas.Length
      invariant -1 <= steal < i && most == if steal >= 0 then quotas[steal] else floor
      invariant steal >= 0 ==> steal != need && quotas[steal] > floor
      invariant forall j | 0 <= j < i && j != need :: quotas[j] <= most
    {
      if i != need && quotas[i] > most {
        steal, most := i, quotas[i];
      }
    }
  }

  /** Exactly the planned rows, no share below min(floor, rows / n). The raise never has anything to do. */
  method ComputeCoverageQuotas(plannedRows: int, n: nat, floor: int) returns (quotas: array<int>)
    ensures fresh(quotas) && quotas.Length == n
    ensures n > 0 && plannedRows <= 0 ==> forall i | 0 <= i < n :: quotas[i] == 0
    ensures n > 0 && plannedRows > 0 ==> quotas[..] == EvenSplit(plannedRows, n)
    ensures n > 0 ==> Sum(quotas[..]) == MaxInt(0, plannedRows)
    ensures n > 0 ==> forall i | 0 <= i < n :: quotas[i] >= MinInt(MaxInt(0, floor), MaxInt(0, plannedRows) / n)
  {
    quotas := new int[n];
    if n == 0 { return; }
    if plannedRows <= 0 {
      for i := 0 to n
        invariant forall j | 0 <= j < i :: quotas[j] == 0
      {
        quotas[i] := 0;
      }
      ZeroSum(quotas[..]);
      return;
    }
    var base := plannedRows / n;
    var remainder := plannedRows - base * n;
    assert remainder == plannedRows % n;
    for i := 0 to n
      invariant forall j | 0 <= j < i :: quotas[j] == EvenShare(plannedRows, n, j)
    {
      quotas[i] := base + if i < remainder then 1 else 0;
    }
    assert quotas[..] == EvenSplit(plannedRows, n);
    EvenSplitSums(plannedRows, n);
    var effFloor := MinInt(MaxInt(0, floor), plannedRows / n);
    if effFloor > 0 {
      RaiseToFloor(quotas, effFloor);
    }
  }

  lemma {:induction false} ZeroSum(xs: seq<int>)
    requires forall i | 0 <= i < |xs| :: xs[i] == 0
    ensures Sum(xs) == 0
  {
    if xs != [] {
      ZeroSum(xs[1..]);
    }
  }

  // ------------------------------------------------------------ picking

  /** How often type i was emitted. */
  function Times(i: nat, emitted: seq<nat>): nat {
    if emitted == [] then 0 else (if emitted[0] == i then 1 else 0) + Times(i, emitted[1..])
  }

  /** The largest entry, the first of them on a tie. */
  function FirstLargest(xs: seq<int>): (idx: nat)
    requires xs != []
    ensures idx < |xs| && forall i | 0 <= i < |xs| :: xs[i] <= xs[idx]
    ensures forall i | 0 <= i < idx :: xs[i] < xs[idx]
  {
    var best := if |xs| == 1 then 0 else FirstLargest(xs[..|xs| - 1]);
    if xs[|xs| - 1] > xs[best] then |xs| - 1 else best
  }

  lemma LargestIsUnique(xs: seq<int>, idx: nat)
    requires idx < |xs| && (forall i | 0 <= i < |xs| :: xs[i] <= xs[idx]) && forall i | 0 <= i < idx :: xs[i] < xs[idx]
    ensures FirstLargest(xs) == idx
  {
    var best := FirstLargest(xs);
    assert xs[best] <= xs[idx] <= xs[best];
  }

  function UsedOne(quotas: seq<int>, idx: nat): seq<int>
    requires idx < |quotas|
  {
    quotas[idx := quotas[idx] - 1]
  }

  /** Rows picked by quota; a uniform draw stands in once every quota is used up. */
  function Planned(quotas: seq<int>, uniform: seq<nat>): (r: seq<nat>)
    requires quotas != []
    decreases |uniform|
  {
    if uniform == [] then []
    else
      var idx := FirstLargest(quotas);
      if quotas[idx] > 0 then [idx] + Planned(UsedOne(quotas, idx), uniform[1..])
      else [uniform[0]] + Planned(quotas, uniform[1..])
  }

  /** The first type still short of the floor, if any. */
  function FirstShort(counts: seq<int>, floor: int): (r: int)
    ensures -1 <= r < |counts|
    ensures r >= 0 ==> counts[r] < floor && forall i | 0 <= i < r :: counts[i] >= floor
    ensures r < 0 ==> forall i | 0 <= i < |counts| :: counts[i] >= floor
  {
    if counts == [] then -1
    else if counts[0] < floor then 0
    else var r := FirstShort(counts[1..], floor); if r < 0 then -1 else r + 1
  }

  lemma {:induction false} FirstShortIs(counts: seq<int>, floor: int, idx: nat)
    requires idx < |counts| && counts[idx] < floor && forall i | 0 <= i < idx :: counts[i] >= floor
    ensures FirstShort(counts, floor) == idx
  {
    if idx > 0 {
      FirstShortIs(counts[1..], floor, idx - 1);
    }
  }

  predicate Draws(uniform: seq<nat>, rows: nat, n: nat) {
    |uniform| == rows && forall k | 0 <= k < rows :: uniform[k] < n
  }

  function CountOne(counts: seq<int>, idx: nat): seq<int>
    requires idx < |counts|
  {
    counts[idx := counts[idx] + 1]
  }

  /** Rows picked without a plan: types below the floor first, in order, then the uniform draws. */
  function Biased(counts: seq<int>, floor: int, uniform: seq<nat>): (r: seq<nat>)
    requires Draws(uniform, |uniform|, |counts|)
    decreases |uniform|
  {
    if uniform == [] then []
    else
      var short := FirstShort(counts, floor);
      var idx := if short >= 0 then short else uniform[0];
      [idx] + Biased(CountOne(counts, idx), floor, uniform[1..])
  }

  function Zeros(n: nat): seq<int> { seq(n, _ => 0) }

  /** The types of the rows of one class, one draw a row; `planned` is zero or less without a plan. */
  function Emitted(n: nat, floor: int, planned: int, uniform: seq<nat>): (r: seq<nat>)
    requires n > 0 && Draws(uniform, |uniform|, n)
  {
    if floor > 0 && n > 1 then
      if planned > 0 then Planned(EvenSplit(planned, n), uniform) else Biased(Zeros(n), floor, uniform)
    else uniform
  }

  // ------------------------------------------------------------ every pick told from the picks before it

  function Tally(counts: seq<int>, emitted: seq<nat>): seq<int> {
    seq(|counts|, i requires 0 <= i < |counts| => counts[i] + Times(i, emitted))
  }

  lemma TallyOne(counts: seq<int>, idx: nat, rest: seq<nat>)
    requires idx < |counts|
    ensures Tally(counts, [idx] + rest) == Tally(CountOne(counts, idx), rest)
  {
    assert ([idx] + rest)[1..] == rest;
  }

  /** The first type short of the floor; the row's own draw when none is. */
  predicate PicksShort(counts: seq<int>, floor: int, draw: nat, pick: nat) {
    if forall i | 0 <= i < |counts| :: counts[i] >= floor then pick == draw
    else pick < |counts| && counts[pick] < floor && forall i | 0 <= i < pick :: counts[i] >= floor
  }

  /** Without a plan: the first type still short of the floor, or the row's own draw once none is. */
  lemma {:induction false} BiasedPick(counts: seq<int>, floor: int, uniform: seq<nat>, k: nat)
    requires Draws(uniform, |uniform|, |counts|) && k < |uniform|
    ensures var r := Biased(counts, floor, uniform);
            |r| == |uniform| && PicksShort(Tally(counts, r[..k]), floor, uniform[k], r[k])
    decreases k
  {
    BiasedLength(counts, floor, uniform);
    var short := FirstShort(counts, floor);
    if k == 0 {
      assert Tally(counts, []) == counts;
    } else {
      var idx: nat := if short >= 0 then short else uniform[0];
      var rest := Biased(CountOne(counts, idx), floor, uniform[1..]);
      BiasedPick(CountOne(counts, idx), floor, uniform[1..], k - 1);
      assert ([idx] + rest)[..k] == [idx] + rest[..k - 1];
      TallyOne(counts, idx, rest[..k - 1]);
    }
  }

  lemma {:induction false} BiasedLength(counts: seq<int>, floor: int, uniform: seq<nat>)
    requires Draws(uniform, |uniform|, |counts|)
    ensures |Biased(counts, floor, uniform)| == |uniform|
    decreases |uniform|
  {
    if uniform != [] {
      var short := FirstShort(counts, floor);
      BiasedLength(CountOne(counts, if short >= 0 then short else uniform[0]), floor, uniform[1..]);
    }
  }

  /** What is left of each quota once these rows are emitted. */
  function Left(quotas: seq<int>, emitted: seq<nat>): seq<int> {
    seq(|quotas|, i requires 0 <= i < |quotas| => quotas[i] - Times(i, emitted))
  }

  /** The first type with most left; the row's own draw when no type has any left. */
  predicate PicksMost(left: seq<int>, draw: nat, pick: nat) {
    if forall i | 0 <= i < |left| :: left[i] <= 0 then pick == draw
    else pick < |left| && (forall i | 0 <= i < |left| :: left[i] <= left[pick])
         && forall i | 0 <= i < pick :: left[i] < left[pick]
  }

  lemma LeftOne(quotas: seq<int>, idx: nat, rest: seq<nat>)
    requires idx < |quotas|
    ensures Left(quotas, [idx] + rest) == Left(UsedOne(quotas, idx), rest)
  {
    assert ([idx] + rest)[1..] == rest;
  }

  lemma {:induction false} PlannedSpent(quotas: seq<int>, uniform: seq<nat>)
    requires quotas != [] && quotas[FirstLargest(quotas)] <= 0
    ensures Planned(quotas, uniform) == uniform
    decreases |uniform|
  {
    if uniform != [] {
      PlannedSpent(quotas, uniform[1..]);
      assert uniform == [uniform[0]] + uniform[1..];
    }
  }

  /** With a plan: the first type with most of its quota left, or the row's own draw once every quota is used up. */
  lemma {:induction false} PlannedPick(quotas: seq<int>, uniform: seq<nat>, k: nat)
    requires quotas != [] && k < |uniform|
    ensures var r := Planned(quotas, uniform);
            |r| == |uniform| && PicksMost(Left(quotas, r[..k]), uniform[k], r[k])
    decreases k
  {
    PlannedLength(quotas, uniform);
    var idx := FirstLargest(quotas);
    if quotas[idx] <= 0 {
      PlannedSpent(quotas, uniform);
      assert forall i | 0 <= i < |quotas| :: Left(quotas, uniform[..k])[i] <= quotas[i] <= 0;
    } else if k == 0 {
      assert Left(quotas, []) == quotas;
    } else {
      var rest := Planned(UsedOne(quotas, idx), uniform[1..]);
      PlannedPick(UsedOne(quotas, idx), uniform[1..], k - 1);
      assert ([idx] + rest)[..k] == [idx] + rest[..k - 1];
      LeftOne(quotas, idx, rest[..k - 1]);
    }
  }

  lemma {:induction false} PlannedLength(quotas: seq<int>, uniform: seq<nat>)
    requires quotas != []
    ensures |Planned(quotas, uniform)| == |uniform|
    decreases |uniform|
  {
    if uniform != [] {
      var idx := FirstLargest(quotas);
      PlannedLength(if quotas[idx] > 0 then UsedOne(quotas, idx) else quotas, uniform[1..]);
    }
  }

  // ------------------------------------------------------------ the generator's loop

  /** The type with the largest quota left, the first of them on a tie; `uniform` when every quota is used up. */
  method PickPlanned(quotas: array<int>, uniform: nat) returns (idx: nat)
    requires quotas.Length > 0 && uniform < quotas.Length
    modifies quotas
    ensures idx < quotas.Length
    ensures if exists i :: 0 <= i < quotas.Length && old(quotas[i]) > 0
            then idx == FirstLargest(old(quotas[..])) && quotas[..] == UsedOne(old(quotas[..]), idx)
            else idx == uniform && quotas[..] == old(quotas[..])
  {
    idx := 0;
    var best := quotas[0];
    for s := 1 to quotas.Length
      invariant idx < s && best == quotas[idx] && quotas[..] == old(quotas[..])
      invariant forall i | 0 <= i < s :: quotas[i] <= best
      invariant forall i | 0 <= i < idx :: quotas[i] < best
    {
      if quotas[s] > best { idx, best := s, quotas[s]; }
    }
    if best <= 0 {
      idx := uniform;
    } else {
      LargestIsUnique(quotas[..], idx);
      quotas[idx] := quotas[idx] - 1;
    }
  }

  /** The first type short of the floor, or the uniform draw. */
  method PickBiased(counts: array<int>, floor: int, uniform: nat) returns (idx: nat)
    requires uniform < counts.Length
    modifies counts
    ensures idx == if FirstShort(old(counts[..]), floor) >= 0 then FirstShort(old(counts[..]), floor) else uniform
    ensures idx < counts.Length && counts[..] == CountOne(old(counts[..]), idx)
  {
    var short := -1;
    for s := 0 to counts.Length
      invariant forall i | 0 <= i < s :: counts[i] >= floor
      invariant short == -1 && counts[..] == old(counts[..])
    {
      if counts[s] < floor {
        FirstShortIs(counts[..], floor, s);
        short := s;
        break;
      }
    }
    idx := if short < 0 then uniform else short;
    counts[idx] := counts[idx] + 1;
  }

  /** What is still to come from the middle of the loop, with `table` the quotas or the counts. */
  ghost function Rest(active: bool, planned: int, floor: int, table: seq<int>, uniform: seq<nat>): seq<nat>
    requires table != [] && Draws(uniform, |uniform|, |table|)
  {
    if !active then uniform
    else if planned > 0 then Planned(table, uniform)
    else Biased(table, floor, uniform)
  }

  method PickType(active: bool, planned: int, floor: int, table: array<int>, uniform: nat, ghost draws: seq<nat>)
    returns (idx: nat)
    requires draws != [] && draws[0] == uniform && table.Length > 0 && Draws(draws, |draws|, table.Length)
    modifies table
    ensures Rest(active, planned, floor, old(table[..]), draws)
            == [idx] + Rest(active, planned, floor, table[..], draws[1..])
  {
    assert draws == [uniform] + draws[1..];
    if !active {
      idx := uniform;
    } else if planned > 0 {
      assert forall i | 0 <= i < table.Length :: table[i] == table[..][i];
      idx := PickPlanned(table, uniform);
    } else {
      idx := PickBiased(table, floor, uniform);
    }
  }

  method StartTable(n: nat, floor: int, planned: int, ghost uniform: seq<nat>) returns (table: array<int>)
    requires n > 0 && Draws(uniform, |uniform|, n)
    ensures fresh(table) && table.Length == n
    ensures Rest(floor > 0 && n > 1, planned, floor, table[..], uniform) == Emitted(n, floor, planned, uniform)
  {
    if floor > 0 && n > 1 && planned > 0 {
      table := ComputeCoverageQuotas(planned, n, floor);
    } else {
      table := new int[n](_ => 0);
      assert table[..] == Zeros(n);
    }
  }

  lemma AppendOne(emitted: seq<nat>, idx: nat, rest: seq<nat>)
    ensures emitted + ([idx] + rest) == emitted + [idx] + rest
  {
  }

  method EmitRows(n: nat, floor: int, planned: int, uniform: seq<nat>) returns (emitted: seq<nat>)
    requires n > 0 && Draws(uniform, |uniform|, n)
    ensures emitted == Emitted(n, floor, planned, uniform)
  {
    var active := floor > 0 && n > 1;
    var table := StartTable(n, floor, planned, uniform);
    emitted := [];
    assert uniform[0..] == uniform;
    for k := 0 to |uniform|
      invariant fresh(table) && table.Length == n
      invariant emitted + Rest(active, planned, floor, table[..], uniform[k..]) == Emitted(n, floor, planned, uniform)
    {
      var idx := PickType(active, planned, floor, table, uniform[k], uniform[k..]);
      assert uniform[k..][1..] == uniform[k + 1..];
      AppendOne(emitted, idx, Rest(active, planned, floor, table[..], uniform[k + 1..]));
      emitted := emitted + [idx];
    }
  }

  // ------------------------------------------------------------ with a plan

  lemma {:induction false} PositiveSomewhere(xs: seq<int>, most: int)
    requires Sum(xs) > 0 && forall i | 0 <= i < |xs| :: xs[i] <= most
    ensures most > 0
  {
    if xs[0] <= 0 {
      PositiveSomewhere(xs[1..], most);
    }
  }

  lemma {:induction false} AllUsedUp(xs: seq<int>, i: nat)
    requires Sum(xs) == 0 && i < |xs| && forall k | 0 <= k < |xs| :: xs[k] >= 0
    ensures xs[i] == 0
  {
    NonNegativeSum(xs[1..]);
    if i > 0 { AllUsedUp(xs[1..], i - 1); }
  }

  lemma {:induction false} NonNegativeSum(xs: seq<int>)
    requires forall k | 0 <= k < |xs| :: xs[k] >= 0
    ensures Sum(xs) >= 0
  {
    if xs != [] {
      NonNegativeSum(xs[1..]);
    }
  }

  /** As many draws as quota left: every type is picked exactly its quota. */
  lemma {:induction false} QuotasUsedUp(quotas: seq<int>, uniform: seq<nat>, i: nat)
    requires i < |quotas| && Sum(quotas) == |uniform| && forall k | 0 <= k < |quotas| :: quotas[k] >= 0
    ensures Times(i, Planned(quotas, uniform)) == quotas[i]
    decreases |uniform|
  {
    if uniform == [] {
      AllUsedUp(quotas, i);
    } else {
      var idx := FirstLargest(quotas);
      PositiveSomewhere(quotas, quotas[idx]);
      SumUpdate(quotas, idx, quotas[idx] - 1);
      QuotasUsedUp(UsedOne(quotas, idx), uniform[1..], i);
    }
  }

  predicate EvenlyEmitted(emitted: seq<nat>, rows: nat, n: nat)
    requires n > 0
  {
    forall i | 0 <= i < n :: Times(i, emitted) == EvenShare(rows, n, i)
  }

  lemma {:induction false} TimesConstant(uniform: seq<nat>, x: nat)
    requires forall k | 0 <= k < |uniform| :: uniform[k] == x
    ensures Times(x, uniform) == |uniform|
  {
    if uniform != [] {
      TimesConstant(uniform[1..], x);
    }
  }

  /** No type but the last is drawn: too many of it, unless there is one type or no row. */
  lemma UnevenDraws(rows: nat, n: nat)
    requires n > 1 && rows > 0
    ensures var uniform := seq(rows, _ => n - 1); Draws(uniform, rows, n) && !EvenlyEmitted(uniform, rows, n)
  {
    var uniform := seq(rows, _ => n - 1);
    TimesConstant(uniform, n - 1);
    assert EvenShare(rows, n, n - 1) == rows / n;
    LessThanAll(rows, n);
  }

  lemma LessThanAll(rows: nat, n: nat)
    requires n > 1 && rows > 0
    ensures rows / n < rows
  {
    AtLeastDouble(rows / n, n);
    assert rows == rows / n * n + rows % n;
  }

  lemma AtLeastDouble(q: nat, n: nat)
    requires n > 1
    ensures q * n >= 2 * q
  {
    assert q * n == q * (n - 2) + 2 * q;
  }

  lemma FloorEmitsEvenly(rows: nat, n: nat, floor: int, uniform: seq<nat>)
    requires n > 0 && Draws(uniform, rows, n) && (floor > 0 || n == 1 || rows == 0)
    ensures EvenlyEmitted(Emitted(n, floor, rows, uniform), rows, n)
  {
    if rows > 0 && n > 1 {
      EvenSplitSums(rows, n);
      forall i | 0 <= i < n ensures Times(i, Emitted(n, floor, rows, uniform)) == EvenShare(rows, n, i) {
        QuotasUsedUp(EvenSplit(rows, n), uniform, i);
      }
    } else if n == 1 {
      TimesConstant(uniform, 0);
    }
  }

  /** As many rows as planned meet the even split for every draw iff the floor is on, or nothing could differ. */
  lemma EvenlyEmittedExactly(rows: nat, n: nat, floor: int)
    requires n > 0
    ensures (forall uniform | Draws(uniform, rows, n) :: EvenlyEmitted(Emitted(n, floor, rows, uniform), rows, n))
            <==> floor > 0 || n == 1 || rows == 0
  {
    if floor > 0 || n == 1 || rows == 0 {
      forall uniform | Draws(uniform, rows, n) ensures EvenlyEmitted(Emitted(n, floor, rows, uniform), rows, n) {
        FloorEmitsEvenly(rows, n, floor, uniform);
      }
    } else {
      UnevenDraws(rows, n);
      var uniform := seq(rows, _ => n - 1);
      assert Emitted(n, floor, rows, uniform) == uniform;
    }
  }

  // ------------------------------------------------------------ without one

  /** How many rows the counts are short of the floor. */
  function Shortage(counts: seq<int>, floor: int): nat {
    if counts == [] then 0 else MaxInt(0, floor - counts[0]) + Shortage(counts[1..], floor)
  }

  lemma {:induction false} NothingShort(counts: seq<int>, floor: int)
    ensures Shortage(counts, floor) == 0 <==> forall i | 0 <= i < |counts| :: counts[i] >= floor
  {
    if counts != [] {
      NothingShort(counts[1..], floor);
      assert counts == [counts[0]] + counts[1..];
    }
  }

  lemma {:induction false} ShortageCount(counts: seq<int>, floor: int, idx: nat)
    requires idx < |counts|
    ensures Shortage(CountOne(counts, idx), floor) == Shortage(counts, floor) - if counts[idx] < floor then 1 else 0
  {
    if idx == 0 {
      assert CountOne(counts, idx)[1..] == counts[1..];
    } else {
      assert CountOne(counts, idx)[1..] == CountOne(counts[1..], idx - 1);
      ShortageCount(counts[1..], floor, idx - 1);
    }
  }

  lemma {:induction false} ShortageAtFirst(n: nat, floor: int)
    ensures Shortage(Zeros(n), floor) == n * MaxInt(0, floor)
  {
    if n > 0 {
      assert Zeros(n)[1..] == Zeros(n - 1);
      ShortageAtFirst(n - 1, floor);
    }
  }

  /** Every row goes to a type that is short while there is one. */
  lemma {:induction false} ShortageUsedUp(counts: seq<int>, floor: int, uniform: seq<nat>)
    requires Draws(uniform, |uniform|, |counts|)
    ensures Shortage(Tally(counts, Biased(counts, floor, uniform)), floor)
            == MaxInt(0, Shortage(counts, floor) - |uniform|)
    decreases |uniform|
  {
    if uniform == [] {
      assert Tally(counts, []) == counts;
    } else {
      var short := FirstShort(counts, floor);
      var idx: nat := if short >= 0 then short else uniform[0];
      NothingShort(counts, floor);
      ShortageCount(counts, floor, idx);
      ShortageUsedUp(CountOne(counts, idx), floor, uniform[1..]);
      TallyOne(counts, idx, Biased(CountOne(counts, idx), floor, uniform[1..]));
    }
  }

  predicate ReachesFloor(emitted: seq<nat>, n: nat, floor: int) { forall i | 0 <= i < n :: Times(i, emitted) >= floor }

  lemma FloorReachedBy(rows: nat, n: nat, floor: int, uniform: seq<nat>)
    requires n > 0 && Draws(uniform, rows, n)
    ensures ReachesFloor(Emitted(n, floor, 0, uniform), n, floor) <==> floor <= 0 || rows >= n * floor
  {
    if floor > 0 {
      if n > 1 {
        var emitted := Emitted(n, floor, 0, uniform);
        var final := Tally(Zeros(n), emitted);
        ShortageUsedUp(Zeros(n), floor, uniform);
        ShortageAtFirst(n, floor);
        NothingShort(final, floor);
        assert forall i | 0 <= i < n :: final[i] == Times(i, emitted);
        assert ReachesFloor(emitted, n, floor) <==> forall i | 0 <= i < n :: final[i] >= floor;
      } else {
        TimesConstant(uniform, 0);
      }
    }
  }

  /** Without a plan every type reaches the floor, for every draw, iff there are rows for it. */
  lemma FloorReachedExactly(rows: nat, n: nat, floor: int)
    requires n > 0
    ensures (forall uniform | Draws(uniform, rows, n) :: ReachesFloor(Emitted(n, floor, 0, uniform), n, floor))
            <==> floor <= 0 || rows >= n * floor
  {
    forall uniform | Draws(uniform, rows, n)
      ensures ReachesFloor(Emitted(n, floor, 0, uniform), n, floor) <==> floor <= 0 || rows >= n * floor
    {
      FloorReachedBy(rows, n, floor, uniform);
    }
    var zeros: seq<nat> := seq(rows, _ => 0);
    assert Draws(zeros, rows, n);
  }
}
