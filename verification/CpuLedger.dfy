/**
 CPU time accounting: one CPU's scheduler ledger, rewritten at every task switch, and the collector
 that turns ledgers into per-window snapshots and ratios.
 */
module CpuLedger {
  import opened Common

  /** A task as the program reads it: identity, idle flag and accumulated CPU times. */
  datatype Task = Task(id: nat, idle: bool, utime: u64, stime: u64)

  /** `prev` is read as it leaves the CPU, `next` as it enters. */
  datatype Switch = Switch(now: u64, prev: Task, next: Task)

  datatype Ledger = Ledger(
    lastSwitch: u64, activeUser: u64, activeSystem: u64,
    idle: u64, user: u64, system: u64)

  const EMPTY: Ledger := Ledger(0, 0, 0, 0, 0, 0)

  function Remember(l: Ledger, task: Task): Ledger {
    l.(activeUser := task.utime, activeSystem := task.stime)
  }

  /** `talia_sched_switch`. */
  function AfterSwitch(l: Ledger, s: Switch): Ledger {
    var entered := Remember(l.(lastSwitch := s.now), s.next);
    if l.lastSwitch == 0 then entered
    else if s.prev.idle then entered.(idle := WrapU64(l.idle + WrapU64(s.now - l.lastSwitch)))
    else
      entered.(
        user := if s.prev.utime >= l.activeUser then WrapU64(l.user + (s.prev.utime - l.activeUser)) else l.user,
        system := if s.prev.stime >= l.activeSystem then WrapU64(l.system + (s.prev.stime - l.activeSystem)) else l.system)
  }

  class Program {
    var counters: Ledger

    constructor ()
      ensures counters == EMPTY
    {
      counters := EMPTY;
    }

    method RememberActiveTask(task: Task)
      modifies this
      ensures counters == Remember(old(counters), task)
    {
      counters := counters.(activeUser := task.utime);
      counters := counters.(activeSystem := task.stime);
    }

    method SchedSwitch(s: Switch)
      modifies this
      ensures counters == AfterSwitch(old(counters), s)
    {
      if counters.lastSwitch == 0 {
        counters := counters.(lastSwitch := s.now);
        RememberActiveTask(s.next);
        return;
      }
      var delta := WrapU64(s.now - counters.lastSwitch);
      counters := counters.(lastSwitch := s.now);
      if s.prev.idle {
        counters := counters.(idle := WrapU64(counters.idle + delta));
        RememberActiveTask(s.next);
        return;
      }
      if s.prev.utime >= counters.activeUser {
        counters := counters.(user := WrapU64(counters.user + (s.prev.utime - counters.activeUser)));
      }
      if s.prev.stime >= counters.activeSystem {
        counters := counters.(system := WrapU64(counters.system + (s.prev.stime - counters.activeSystem)));
      }
      RememberActiveTask(s.next);
    }
  }

  // ---------------------------------------------------------------- one run

  function After(run: seq<Switch>): Ledger {
    if run == [] then EMPTY else AfterSwitch(After(run[..|run| - 1]), run[|run| - 1])
  }

  /** How far a time went forward; a step back counts as nothing. */
  function Grown(before: u64, after: u64): nat {
    if after >= before then after - before else 0
  }

  /** Neither CPU time, nor both together, grew faster than the clock. */
  predicate Fits(a: Switch, b: Switch) {
    var elapsed := b.now - a.now;
    var user, system := b.prev.utime - a.next.utime, b.prev.stime - a.next.stime;
    user <= elapsed && system <= elapsed && user + system <= elapsed
  }

  /** Exactly when what a slice contributes fits in the time it took, whether or not a time stepped back. */
  lemma FitsExactly(a: Switch, b: Switch)
    requires a.now <= b.now
    ensures Fits(a, b)
       <==> Grown(a.next.utime, b.prev.utime) + Grown(a.next.stime, b.prev.stime) <= b.now - a.now
  {
  }

  /** The task leaving is the one that entered, and unless it is the idle task its times fit. */
  predicate Follows(a: Switch, b: Switch) {
    && a.now <= b.now
    && b.prev.id == a.next.id && b.prev.idle == a.next.idle
    && (b.prev.idle || Fits(a, b))
  }

  predicate Legal(run: seq<Switch>) {
    forall i :: 0 < i < |run| ==> Follows(run[i - 1], run[i])
  }

  /** When accounting began: a zero timestamp reads as "never switched". */
  function FirstSwitch(run: seq<Switch>): u64 {
    if run == [] then 0
    else
      var first := FirstSwitch(run[..|run| - 1]);
      if first != 0 then first else run[|run| - 1].now
  }

  datatype Spent = Spent(idle: nat, user: nat, system: nat)

  /** What the slice between two switches contributes: wall time if idle, its own CPU times otherwise. */
  function Slice(a: Switch, b: Switch): Spent
    requires Follows(a, b)
  {
    if a.now == 0 then Spent(0, 0, 0)
    else if b.prev.idle then Spent(b.now - a.now, 0, 0)
    else Spent(0, Grown(a.next.utime, b.prev.utime), Grown(a.next.stime, b.prev.stime))
  }

  function SpentIn(run: seq<Switch>): Spent
    requires Legal(run)
  {
    if |run| < 2 then Spent(0, 0, 0)
    else
      var n := |run| - 1;
      var before, last := SpentIn(run[..n]), Slice(run[n - 1], run[n]);
      Spent(before.idle + last.idle, before.user + last.user, before.system + last.system)
  }

  /** The ledger after a run that ended with switch `last`, given what the run's slices add up to. */
  predicate Matches(l: Ledger, last: Switch, s: Spent) {
    && l.lastSwitch == last.now && l.activeUser == last.next.utime && l.activeSystem == last.next.stime
    && l.idle == s.idle && l.user == s.user && l.system == s.system
  }

  /** One switch adds exactly its slice, which fits in the time since the previous switch. */
  lemma SwitchAddsSlice(l: Ledger, a: Switch, b: Switch, s: Spent, first: u64)
    requires Matches(l, a, s) && Follows(a, b)
    requires first <= a.now && s.idle + s.user + s.system <= a.now - first
    ensures var x := Slice(a, b);
            && Matches(AfterSwitch(l, b), b, Spent(s.idle + x.idle, s.user + x.user, s.system + x.system))
            && x.idle + x.user + x.system <= b.now - a.now
  {
  }

  /** What a column gained, even across a wrap. */
  function Gained(before: u64, after: u64): u64 {
    WrapU64(after - before)
  }

  lemma GainedBack(before: u64, d: u64)
    ensures Gained(before, WrapU64(before + d)) == d && Gained(before, before) == 0
  {
    WrapU64Absorbs(before + d, 0 - before);
  }

  /** What one switch adds to the three columns together. */
  function SwitchGain(l: Ledger, b: Switch): int {
    var m := AfterSwitch(l, b);
    Gained(l.idle, m.idle) + Gained(l.user, m.user) + Gained(l.system, m.system)
  }

  lemma SwitchGainIs(l: Ledger, a: Switch, b: Switch)
    requires l.lastSwitch == a.now != 0 && a.now <= b.now
    requires l.activeUser == a.next.utime && l.activeSystem == a.next.stime
    ensures SwitchGain(l, b)
         == if b.prev.idle then b.now - a.now
            else Grown(a.next.utime, b.prev.utime) + Grown(a.next.stime, b.prev.stime)
  {
    var elapsed := b.now - a.now;
    var user, system := Grown(a.next.utime, b.prev.utime), Grown(a.next.stime, b.prev.stime);
    GainedBack(l.idle, elapsed);
    GainedBack(l.user, user);
    GainedBack(l.system, system);
    GainedBack(l.user, 0);
    GainedBack(l.system, 0);
    assert WrapU64(elapsed) == elapsed;
    assert AfterSwitch(l, b).idle == if b.prev.idle then WrapU64(l.idle + elapsed) else l.idle;
    assert AfterSwitch(l, b).user == if b.prev.idle then l.user else WrapU64(l.user + user);
    assert AfterSwitch(l, b).system == if b.prev.idle then l.system else WrapU64(l.system + system);
  }

  /**
   The exact condition at the ledger: after a first switch, one more switch adds no more than the time since
   the last one if and only if the task leaving is the idle task or its times fit.
   */
  lemma SwitchFitsExactly(l: Ledger, a: Switch, b: Switch)
    requires l.lastSwitch == a.now != 0 && a.now <= b.now
    requires l.activeUser == a.next.utime && l.activeSystem == a.next.stime
    ensures SwitchGain(l, b) <= b.now - a.now <==> b.prev.idle || Fits(a, b)
  {
    SwitchGainIs(l, a, b);
    FitsExactly(a, b);
  }

  /**
   The ledger is exactly the sum of the slices, and idle, user and system time together never exceed
   the span between the first and the last switch; so none of its 64-bit additions ever wraps.
   */
  lemma {:induction false} LedgerIsSumOfSlices(run: seq<Switch>)
    requires run != [] && Legal(run)
    ensures Matches(After(run), run[|run| - 1], SpentIn(run))
    ensures FirstSwitch(run) <= run[|run| - 1].now
    ensures run[|run| - 1].now != 0 ==> FirstSwitch(run) != 0
    ensures var s := SpentIn(run); s.idle + s.user + s.system <= run[|run| - 1].now - FirstSwitch(run)
  {
    var n := |run| - 1;
    if n > 0 {
      var before := run[..n];
      assert Legal(before);
      LedgerIsSumOfSlices(before);
      assert Follows(run[n - 1], run[n]);
      SwitchAddsSlice(After(before), run[n - 1], run[n], SpentIn(before), FirstSwitch(before));
    } else {
      assert run[..n] == [];
    }
  }

  lemma SpentOneMore(run: seq<Switch>)
    requires Legal(run) && |run| > 1
    ensures var n := |run| - 1;
            && Legal(run[..n]) && Follows(run[n - 1], run[n])
            && var before, last := SpentIn(run[..n]), Slice(run[n - 1], run[n]);
               && SpentIn(run) == Spent(before.idle + last.idle, before.user + last.user, before.system + last.system)
               && last.idle + last.user + last.system <= run[n].now - run[n - 1].now
  {
    assert Follows(run[|run| - 2], run[|run| - 1]);
  }

  /** Every window, from any earlier switch on, stays within its own span. */
  lemma {:induction false} WindowWithinSpan(run: seq<Switch>, m: nat)
    requires Legal(run) && 0 < m <= |run| && run[m - 1].now != 0
    ensures Legal(run[..m])
    ensures var a, b := SpentIn(run[..m]), SpentIn(run);
            && a.idle <= b.idle && a.user <= b.user && a.system <= b.system
            && (b.idle - a.idle) + (b.user - a.user) + (b.system - a.system) <= run[|run| - 1].now - run[m - 1].now
    decreases |run|
  {
    if m == |run| {
      assert run[..m] == run;
    } else {
      var before := run[..|run| - 1];
      SpentOneMore(run);
      assert before[..m] == run[..m];
      WindowWithinSpan(before, m);
    }
  }

  /** The clock does not go back and the task leaving is the one that entered; its times may do anything. */
  predicate Continued(run: seq<Switch>) {
    forall i :: 0 < i < |run| ==>
      run[i - 1].now <= run[i].now && run[i].prev.id == run[i - 1].next.id && run[i].prev.idle == run[i - 1].next.idle
  }

  /** Every accounted slice is idle, or its times fit. */
  predicate SlicesFit(run: seq<Switch>) {
    forall i :: 0 < i < |run| && run[i - 1].now != 0 ==> run[i].prev.idle || Fits(run[i - 1], run[i])
  }

  lemma LastSwitchRemembered(run: seq<Switch>)
    requires run != []
    ensures var l, last := After(run), run[|run| - 1];
            l.lastSwitch == last.now && l.activeUser == last.next.utime && l.activeSystem == last.next.stime
  {
  }

  /** What the ledger gained from switch `m` to switch `n`, counting from one. */
  function GainBetween(run: seq<Switch>, m: nat, n: nat): int
    requires n <= |run|
  {
    if n <= m then 0 else GainBetween(run, m, n - 1) + SwitchGain(After(run[..n - 1]), run[n - 1])
  }

  predicate WindowFits(run: seq<Switch>, m: nat, n: nat)
    requires 0 < m <= n <= |run|
  {
    GainBetween(run, m, n) <= run[n - 1].now - run[m - 1].now
  }

  lemma OneSwitchWindow(run: seq<Switch>, i: nat)
    requires Continued(run) && 0 < i < |run| && run[i - 1].now != 0
    ensures GainBetween(run, i, i + 1) == SwitchGain(After(run[..i]), run[i])
    ensures WindowFits(run, i, i + 1) <==> run[i].prev.idle || Fits(run[i - 1], run[i])
  {
    LastSwitchRemembered(run[..i]);
    assert run[..i][i - 1] == run[i - 1];
    SwitchFitsExactly(After(run[..i]), run[i - 1], run[i]);
    assert GainBetween(run, i, i) == 0;
  }

  lemma {:induction false} FittingSlicesFitWindows(run: seq<Switch>, m: nat, n: nat)
    requires Continued(run) && SlicesFit(run)
    requires 0 < m <= n <= |run| && run[m - 1].now != 0
    ensures WindowFits(run, m, n) && run[n - 1].now != 0
  {
    if m < n {
      FittingSlicesFitWindows(run, m, n - 1);
      OneSwitchWindow(run, n - 1);
      assert GainBetween(run, n - 1, n - 1) == 0;
    }
  }

  /**
   The bound on whole runs, exactly: every window of a run stays within its own span if and only if every
   busy slice of it fits.
   */
  lemma WindowsFitExactly(run: seq<Switch>)
    requires Continued(run)
    ensures (forall m, n :: 0 < m <= n <= |run| && run[m - 1].now != 0 ==> WindowFits(run, m, n)) <==> SlicesFit(run)
  {
    if SlicesFit(run) {
      forall m, n | 0 < m <= n <= |run| && run[m - 1].now != 0
        ensures WindowFits(run, m, n)
      {
        FittingSlicesFitWindows(run, m, n);
      }
    } else {
      var i :| 0 < i < |run| && run[i - 1].now != 0 && !(run[i].prev.idle || Fits(run[i - 1], run[i]));
      OneSwitchWindow(run, i);
      assert !WindowFits(run, i, i + 1);
    }
  }

  /** Bounded net growth is not enough: a user time that steps back can hide system time that outran the clock. */
  lemma NetGrowthIsNotEnough() returns (a: Switch, b: Switch)
    ensures a.now == 100 && b.now == 105 && b.prev.id == a.next.id
    ensures (b.prev.utime + b.prev.stime) - (a.next.utime + a.next.stime) <= b.now - a.now
    ensures var l := AfterSwitch(AfterSwitch(EMPTY, a), b);
            l.idle + l.user + l.system > b.now - a.now
  {
    var idle := Task(0, true, 0, 0);
    a := Switch(100, idle, Task(7, false, 50, 0));
    b := Switch(105, Task(7, false, 45, 10), idle);
  }

  // --------------------------------------------------------------- collector

  datatype Snapshot = Snapshot(cpu: nat, idle: u64, user: u64, system: u64) {
    function Total(): u64 {
      SatAdd(SatAdd(idle, user), system)
    }
  }

  function Ratio(value: u64, total: u64): real {
    if total == 0 then 0.0 else value as real / total as real
  }

  function RatioSum(s: Snapshot): real {
    Ratio(s.idle, s.Total()) + Ratio(s.user, s.Total()) + Ratio(s.system, s.Total())
  }

  /** The three exact ratios sum to one exactly in the windows that are neither empty nor saturated. */
  lemma RatiosSumToOne(s: Snapshot)
    ensures RatioSum(s) == 1.0 <==> 0 < s.idle + s.user + s.system < U64_LIMIT
  {
    var t := s.Total();
    if t > 0 {
      RatioTimesTotal(s.idle, t);
      RatioTimesTotal(s.user, t);
      RatioTimesTotal(s.system, t);
      var sum := s.idle + s.user + s.system;
      Distribute(Ratio(s.idle, t), Ratio(s.user, t), Ratio(s.system, t), t as real);
      OneIff(RatioSum(s), t as real, sum as real);
      assert t == if sum < U64_LIMIT then sum else U64_LIMIT - 1;
    }
  }

  lemma Distribute(p: real, q: real, r: real, t: real)
    ensures (p + q + r) * t == p * t + q * t + r * t
  {
  }

  lemma OneIff(r: real, t: real, sum: real)
    requires t > 0.0 && r * t == sum
    ensures r == 1.0 <==> sum == t
  {
    if r * t == t {
      assert (r - 1.0) * t == 0.0;
    }
  }

  lemma RatioTimesTotal(value: u64, total: u64)
    requires total > 0
    ensures Ratio(value, total) * total as real == value as real
  {
  }

  function SnapshotOf(cpu: nat, before: Ledger, now: Ledger): Snapshot {
    Snapshot(cpu, SatSub(now.idle, before.idle), SatSub(now.user, before.user), SatSub(now.system, before.system))
  }

  /** The previous ledger of a CPU; a CPU seen for the first time starts from zero. */
  function Before(previous: seq<Ledger>, cpu: nat): Ledger {
    if cpu < |previous| then previous[cpu] else EMPTY
  }

  class Collector {
    var previous: seq<Ledger>

    constructor ()
      ensures previous == []
    {
      previous := [];
    }

    method CpuSnapshots(ledgers: seq<Ledger>) returns (snapshots: seq<Snapshot>)
      modifies this
      ensures |snapshots| == |ledgers|
      ensures forall cpu :: 0 <= cpu < |ledgers| ==>
                snapshots[cpu] == SnapshotOf(cpu, if cpu < |old(previous)| then old(previous)[cpu] else EMPTY, ledgers[cpu])
      ensures previous == ledgers + (if |ledgers| < |old(previous)| then old(previous)[|ledgers|..] else [])
    {
      if |previous| < |ledgers| {
        previous := previous + seq(|ledgers| - |previous|, _ => EMPTY);
      }
      ghost var resized := previous;
      snapshots := [];
      for cpu := 0 to |ledgers|
        invariant |previous| == |resized|
        invariant forall i :: 0 <= i < |resized| ==> previous[i] == if i < cpu then ledgers[i] else resized[i]
        invariant |snapshots| == cpu
        invariant forall i :: 0 <= i < cpu ==> snapshots[i] == SnapshotOf(i, Before(old(previous), i), ledgers[i])
      {
        var before, current := previous[cpu], ledgers[cpu];
        previous := previous[cpu := current];
        snapshots := snapshots + [Snapshot(cpu, SatSub(current.idle, before.idle), SatSub(current.user, before.user),
                                           SatSub(current.system, before.system))];
      }
    }
  }

  /**
   A snapshot taken between two reads of a legal run: nothing saturates, the total is within the span
   covered, and the ratios sum to one unless nothing was accounted.
   */
  lemma SnapshotsOfLegalRuns(cpu: nat, run: seq<Switch>, m: nat)
    requires Legal(run) && 0 < m <= |run| && run[m - 1].now != 0
    ensures var s := SnapshotOf(cpu, After(run[..m]), After(run));
            && Legal(run[..m])
            && s.idle == SpentIn(run).idle - SpentIn(run[..m]).idle
            && s.user == SpentIn(run).user - SpentIn(run[..m]).user
            && s.system == SpentIn(run).system - SpentIn(run[..m]).system
            && s.Total() == s.idle + s.user + s.system <= run[|run| - 1].now - run[m - 1].now
            && RatioSum(s) == if s.Total() == 0 then 0.0 else 1.0
  {
    WindowWithinSpan(run, m);
    LedgerIsSumOfSlices(run);
    LedgerIsSumOfSlices(run[..m]);
    RatiosSumToOne(SnapshotOf(cpu, After(run[..m]), After(run)));
  }
}
