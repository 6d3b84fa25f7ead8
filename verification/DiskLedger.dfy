/**
 Disk I/O accounting: the BPF programs at request issue and completion, with an LRU map of request
 starts and per-CPU counters, and the collector that differences them.

 One run of a BPF program, and one read of a map key, is one atomic step. A request is usually issued
 on one CPU and completed on another, so single in-flight counters drift apart; their sum does not.
 */
module DiskLedger {
  import opened Common
  import opened PerCpu

  datatype Direction = Read | Write

  type u32 = x: int | 0 <= x < 0x1_0000_0000

  datatype RequestKey = RequestKey(sector: u64, dev: u32, bytes: u32, direction: Direction)

  /** One map value: a column per field, a word per CPU. */
  datatype Counters = Counters(
    bytes: seq<u64>,
    operations: seq<u64>,
    latency: seq<u64>,
    errors: seq<u64>,
    inFlightBytes: seq<s64>,
    inFlightOperations: seq<s64>)

  datatype Kernel = Kernel(starts: map<RequestKey, u64>, counters: map<Direction, Counters>)

  const NO_KERNEL: Kernel := Kernel(map[], map[])

  predicate HasWidth(c: Counters, cpus: nat) {
    |c.bytes| == |c.operations| == |c.latency| == |c.errors| == |c.inFlightBytes| == |c.inFlightOperations| == cpus
  }

  ghost predicate Shaped(k: Kernel, cpus: nat) {
    forall d :: d in k.counters ==> HasWidth(k.counters[d], cpus)
  }

  function NoCounters(cpus: nat): Counters {
    var z := Zeros(cpus);
    Counters(z, z, z, z, z, z)
  }

  function CountersOf(k: Kernel, cpus: nat, d: Direction): Counters {
    if d in k.counters then k.counters[d] else NoCounters(cpus)
  }

  // ------------------------------------------------------------ BPF programs

  /**
   A request at the issue tracepoint. The environment decides which starts the LRU map evicts to make
   room, whether the new start is stored, and whether a missing counter entry can be created.
   */
  datatype Issue = Issue(
    cpu: nat, now: u64, dev: u32, sector: u64, bytes: u32, direction: Option<Direction>,
    evicted: set<RequestKey>, stored: bool, canCreate: bool)

  datatype Completion = Completion(
    cpu: nat, now: u64, dev: u32, sector: u64, sectors: u32, error: int, direction: Option<Direction>,
    canCreate: bool)

  predicate Available(k: Kernel, d: Direction, canCreate: bool) {
    d in k.counters || canCreate
  }

  function MoveInFlight(c: Counters, cpu: nat, bytes: int, operations: int): Counters
    requires cpu < |c.inFlightBytes| && cpu < |c.inFlightOperations|
  {
    c.(inFlightBytes := BumpSigned(c.inFlightBytes, cpu, bytes),
       inFlightOperations := BumpSigned(c.inFlightOperations, cpu, operations))
  }

  function IssueKey(i: Issue): RequestKey
    requires i.direction.Some?
  {
    RequestKey(i.sector, i.dev, i.bytes, i.direction.value)
  }

  predicate Ignored(i: Issue) {
    i.bytes == 0 || i.direction.None?
  }

  function AfterIssue(k: Kernel, cpus: nat, i: Issue): Kernel
    requires Shaped(k, cpus) && i.cpu < cpus
  {
    if Ignored(i) then k
    else
      var d, key := i.direction.value, IssueKey(i);
      var kept := k.starts - i.evicted;
      if !i.stored then k.(starts := kept)
      else if !Available(k, d, i.canCreate) then k.(starts := kept - {key})
      else
        Kernel(kept[key := i.now],
               k.counters[d := MoveInFlight(CountersOf(k, cpus, d), i.cpu, i.bytes, 1)])
  }

  predicate Skipped(k: Kernel, e: Completion) {
    || e.sectors == 0 || e.direction.None? || e.sectors * 512 > 0xffff_ffff
    || !Available(k, e.direction.value, e.canCreate)
  }

  function CompletionKey(e: Completion): RequestKey
    requires e.direction.Some? && e.sectors * 512 <= 0xffff_ffff
  {
    RequestKey(e.sector, e.dev, e.sectors * 512, e.direction.value)
  }

  function Latency(k: Kernel, e: Completion): u64
    requires !Skipped(k, e)
  {
    var key := CompletionKey(e);
    if key in k.starts then WrapU64(e.now - k.starts[key]) else 0
  }

  /** The finished request's effect on the monotonic columns. */
  function CountCompletion(c: Counters, cpus: nat, e: Completion, latency: u64): Counters
    requires HasWidth(c, cpus) && e.cpu < cpus
  {
    var timed := c.(latency := Bump(c.latency, e.cpu, latency));
    if e.error != 0 then timed.(errors := Bump(c.errors, e.cpu, 1))
    else timed.(bytes := Bump(c.bytes, e.cpu, e.sectors * 512), operations := Bump(c.operations, e.cpu, 1))
  }

  function AfterCompletion(k: Kernel, cpus: nat, e: Completion): Kernel
    requires Shaped(k, cpus) && e.cpu < cpus
  {
    if Skipped(k, e) then k
    else
      var d, key := e.direction.value, CompletionKey(e);
      var counted := CountCompletion(CountersOf(k, cpus, d), cpus, e, Latency(k, e));
      if key in k.starts
      then Kernel(k.starts - {key}, k.counters[d := MoveInFlight(counted, e.cpu, 0 - key.bytes, -1)])
      else k.(counters := k.counters[d := counted])
  }

  /** The loaded BPF object: both maps, edited in place. */
  class Program {
    const cpus: nat
    var starts: map<RequestKey, u64>
    var counters: map<Direction, Counters>

    function View(): Kernel
      reads this
    {
      Kernel(starts, counters)
    }

    constructor (cpus: nat)
      ensures this.cpus == cpus && View() == NO_KERNEL && Shaped(View(), cpus)
    {
      this.cpus := cpus;
      starts, counters := map[], map[];
    }

    /** `disk_io_counters_for`. */
    method CountersFor(d: Direction, canCreate: bool) returns (found: bool)
      requires Shaped(View(), cpus)
      modifies this`counters
      ensures Shaped(View(), cpus)
      ensures found == Available(old(View()), d, canCreate)
      ensures counters == if found then old(counters)[d := CountersOf(old(View()), cpus, d)] else old(counters)
    {
      if d !in counters {
        if canCreate {
          counters := counters[d := NoCounters(cpus)];
        }
        return canCreate;
      }
      assert counters == counters[d := counters[d]];
      return true;
    }

    method AccountIssue(i: Issue)
      requires Shaped(View(), cpus) && i.cpu < cpus
      modifies this
      ensures Shaped(View(), cpus)
      ensures View() == AfterIssue(old(View()), cpus, i)
    {
      if i.bytes == 0 || i.direction.None? {
        return;
      }
      var d := i.direction.value;
      var key := RequestKey(i.sector, i.dev, i.bytes, d);
      starts := starts - i.evicted;
      if !i.stored {
        return;
      }
      starts := starts[key := i.now];
      var found := CountersFor(d, i.canCreate);
      if !found {
        starts := starts - {key};
        assert starts == old(starts) - i.evicted - {key};
        return;
      }
      var c := counters[d];
      c := c.(inFlightBytes := BumpSigned(c.inFlightBytes, i.cpu, i.bytes));
      c := c.(inFlightOperations := BumpSigned(c.inFlightOperations, i.cpu, 1));
      counters := counters[d := c];
      assert counters == old(counters)[d := c];
    }

    method AccountCompletion(e: Completion)
      requires Shaped(View(), cpus) && e.cpu < cpus
      modifies this
      ensures Shaped(View(), cpus)
      ensures View() == AfterCompletion(old(View()), cpus, e)
    {
      var bytes: int := e.sectors * 512;
      if bytes == 0 || e.direction.None? || bytes > 0xffff_ffff {
        return;
      }
      var d := e.direction.value;
      var found := CountersFor(d, e.canCreate);
      if !found {
        return;
      }
      var c := counters[d];
      var key := RequestKey(e.sector, e.dev, bytes, d);
      ghost var latency := Latency(old(View()), e);
      if key in starts {
        c := c.(latency := Bump(c.latency, e.cpu, WrapU64(e.now - starts[key])));
        c := c.(inFlightBytes := BumpSigned(c.inFlightBytes, e.cpu, -bytes));
        c := c.(inFlightOperations := BumpSigned(c.inFlightOperations, e.cpu, -1));
        starts := starts - {key};
      } else {
        assert Bump(c.latency, e.cpu, 0) == c.latency;
      }
      if e.error != 0 {
        c := c.(errors := Bump(c.errors, e.cpu, 1));
      } else {
        c := c.(bytes := Bump(c.bytes, e.cpu, bytes));
        c := c.(operations := Bump(c.operations, e.cpu, 1));
      }
      counters := counters[d := c];
      assert counters == old(counters)[d := c];
    }
  }

  // ------------------------------------------------------------------- audit

  /** Starts whose in-flight contribution can no longer be taken back, per direction. */
  datatype Lost = Lost(operations: nat, bytes: nat)

  /** Exact, unwrapped columns and the losses of one direction. */
  datatype Audit = Audit(
    bytes: seq<int>, operations: seq<int>, latency: seq<int>, errors: seq<int>,
    inFlightBytes: seq<int>, inFlightOperations: seq<int>,
    lost: Lost)

  function NoAudit(cpus: nat): Audit {
    var z := Zeros(cpus);
    Audit(z, z, z, z, z, z, Lost(0, 0))
  }

  predicate AuditWidth(a: Audit, cpus: nat) {
    |a.bytes| == |a.operations| == |a.latency| == |a.errors| == |a.inFlightBytes| == |a.inFlightOperations| == cpus
  }

  function Toward(keys: set<RequestKey>, d: Direction): set<RequestKey> {
    set key | key in keys && key.direction == d
  }

  ghost function Weight(keys: set<RequestKey>): nat {
    if keys == {} then 0
    else
      var key :| key in keys;
      key.bytes + Weight(keys - {key})
  }

  /** The starts this issue pushes out: evicted, or overwritten by a request with the same key. */
  function PushedOut(k: Kernel, i: Issue): set<RequestKey> {
    if Ignored(i) then {}
    else set key | key in k.starts && (key in i.evicted || (i.stored && key == IssueKey(i)))
  }

  /** Whether this issue adds a start, and its in-flight contribution, to direction `d`. */
  predicate Lands(k: Kernel, d: Direction, i: Issue) {
    !Ignored(i) && i.stored && i.direction.value == d && Available(k, d, i.canCreate)
  }

  ghost function AuditIssue(k: Kernel, cpus: nat, a: Audit, d: Direction, i: Issue): Audit
    requires AuditWidth(a, cpus) && i.cpu < cpus
  {
    var gone := Toward(PushedOut(k, i), d);
    var b := a.(lost := Lost(a.lost.operations + |gone|, a.lost.bytes + Weight(gone)));
    if Lands(k, d, i)
    then b.(inFlightBytes := BumpExact(a.inFlightBytes, i.cpu, i.bytes),
            inFlightOperations := BumpExact(a.inFlightOperations, i.cpu, 1))
    else b
  }

  function CountExactly(a: Audit, cpus: nat, e: Completion, latency: u64): Audit
    requires AuditWidth(a, cpus) && e.cpu < cpus
  {
    var timed := a.(latency := BumpExact(a.latency, e.cpu, latency));
    if e.error != 0 then timed.(errors := BumpExact(a.errors, e.cpu, 1))
    else timed.(bytes := BumpExact(a.bytes, e.cpu, e.sectors * 512), operations := BumpExact(a.operations, e.cpu, 1))
  }

  function AuditCompletion(k: Kernel, cpus: nat, a: Audit, d: Direction, e: Completion): Audit
    requires AuditWidth(a, cpus) && e.cpu < cpus
  {
    if Skipped(k, e) || e.direction.value != d then a
    else
      var counted := CountExactly(a, cpus, e, Latency(k, e));
      if CompletionKey(e) in k.starts
      then counted.(inFlightBytes := BumpExact(a.inFlightBytes, e.cpu, -(e.sectors * 512)),
                    inFlightOperations := BumpExact(a.inFlightOperations, e.cpu, -1))
      else counted
  }

  // ------------------------------------------------- in-flight conservation

  /** What the in-flight columns of one direction must add up to. */
  ghost predicate InFlightOk(k: Kernel, cpus: nat, d: Direction, a: Audit) {
    && AuditWidth(a, cpus)
    && TracksSigned(CountersOf(k, cpus, d).inFlightBytes, a.inFlightBytes)
    && TracksSigned(CountersOf(k, cpus, d).inFlightOperations, a.inFlightOperations)
    && Sum(a.inFlightOperations) == |Toward(k.starts.Keys, d)| + a.lost.operations
    && Sum(a.inFlightBytes) == Weight(Toward(k.starts.Keys, d)) + a.lost.bytes
    // A start is only kept once its counters exist, so failed accounting loses nothing.
    && (d !in k.counters ==> Toward(k.starts.Keys, d) == {})
  }

  lemma {:induction false} WeightPick(keys: set<RequestKey>, key: RequestKey)
    requires key in keys
    ensures Weight(keys) == key.bytes + Weight(keys - {key})
    decreases |keys|
  {
    var first :| first in keys && Weight(keys) == first.bytes + Weight(keys - {first});
    if first != key {
      WeightPick(keys - {first}, key);
      WeightPick(keys - {key}, first);
      assert keys - {first} - {key} == keys - {key} - {first};
    }
  }

  lemma {:induction false} WeightSplit(keys: set<RequestKey>, part: set<RequestKey>)
    requires part <= keys
    ensures Weight(keys) == Weight(part) + Weight(keys - part)
    ensures |keys| == |part| + |keys - part|
    decreases |part|
  {
    if part == {} {
      assert keys - part == keys;
    } else {
      var key :| key in part;
      WeightPick(keys, key);
      WeightPick(part, key);
      WeightSplit(keys - {key}, part - {key});
      assert keys - {key} - (part - {key}) == keys - part;
    }
  }

  lemma WeightAdd(keys: set<RequestKey>, key: RequestKey)
    requires key !in keys
    ensures Weight(keys + {key}) == Weight(keys) + key.bytes && |keys + {key}| == |keys| + 1
  {
    WeightPick(keys + {key}, key);
    assert keys + {key} - {key} == keys;
  }

  /** Which starts of a direction an issue leaves behind. */
  lemma StartsAfterIssue(k: Kernel, cpus: nat, d: Direction, i: Issue)
    requires Shaped(k, cpus) && i.cpu < cpus
    requires d !in k.counters ==> Toward(k.starts.Keys, d) == {}
    ensures var kept := Toward(k.starts.Keys, d) - Toward(PushedOut(k, i), d);
            Toward(AfterIssue(k, cpus, i).starts.Keys, d) == if Lands(k, d, i) then kept + {IssueKey(i)} else kept
  {
    if !Ignored(i) {
      var key, t := IssueKey(i), AfterIssue(k, cpus, i);
      if !i.stored {
        assert t.starts.Keys == k.starts.Keys - i.evicted;
      } else if !Available(k, i.direction.value, i.canCreate) {
        assert t.starts.Keys == k.starts.Keys - i.evicted - {key};
      } else {
        assert t.starts.Keys == (k.starts.Keys - i.evicted) + {key};
      }
    }
  }

  lemma IssueMovesStarts(k: Kernel, cpus: nat, d: Direction, i: Issue)
    requires Shaped(k, cpus) && i.cpu < cpus
    requires d !in k.counters ==> Toward(k.starts.Keys, d) == {}
    ensures var before, after := Toward(k.starts.Keys, d), Toward(AfterIssue(k, cpus, i).starts.Keys, d);
            var gone := Toward(PushedOut(k, i), d);
            && |after| + |gone| == |before| + (if Lands(k, d, i) then 1 else 0)
            && Weight(after) + Weight(gone) == Weight(before) + (if Lands(k, d, i) then i.bytes else 0)
            && (after != {} ==> before != {} || Lands(k, d, i))
  {
    StartsAfterIssue(k, cpus, d, i);
    SplitAndAdd(Toward(k.starts.Keys, d), Toward(PushedOut(k, i), d), if Ignored(i) then None else Some(IssueKey(i)));
  }

  lemma SplitAndAdd(before: set<RequestKey>, gone: set<RequestKey>, key: Option<RequestKey>)
    requires gone <= before
    ensures Weight(before) == Weight(gone) + Weight(before - gone) && |before| == |gone| + |before - gone|
    ensures key.Some? && key.value !in before - gone ==>
              && Weight((before - gone) + {key.value}) == Weight(before - gone) + key.value.bytes
              && |(before - gone) + {key.value}| == |before - gone| + 1
  {
    WeightSplit(before, gone);
    if key.Some? && key.value !in before - gone {
      WeightAdd(before - gone, key.value);
    }
  }

  lemma IssueMovesColumns(k: Kernel, cpus: nat, d: Direction, i: Issue)
    requires Shaped(k, cpus) && i.cpu < cpus
    ensures Shaped(AfterIssue(k, cpus, i), cpus)
    ensures CountersOf(AfterIssue(k, cpus, i), cpus, d)
         == if Lands(k, d, i) then MoveInFlight(CountersOf(k, cpus, d), i.cpu, i.bytes, 1) else CountersOf(k, cpus, d)
  {
  }

  lemma IssueKeepsInFlight(k: Kernel, cpus: nat, d: Direction, a: Audit, i: Issue)
    requires Shaped(k, cpus) && i.cpu < cpus && InFlightOk(k, cpus, d, a)
    ensures InFlightOk(AfterIssue(k, cpus, i), cpus, d, AuditIssue(k, cpus, a, d, i))
  {
    IssueMovesStarts(k, cpus, d, i);
    IssueMovesColumns(k, cpus, d, i);
    if Lands(k, d, i) {
      var c := CountersOf(k, cpus, d);
      BumpSignedTracks(c.inFlightBytes, a.inFlightBytes, i.cpu, i.bytes);
      BumpSignedTracks(c.inFlightOperations, a.inFlightOperations, i.cpu, 1);
    }
  }

  /** An issue whose counters cannot be created loses no start beyond the evicted ones. */
  lemma FailedAccountingLosesNothing(k: Kernel, cpus: nat, a: Audit, i: Issue)
    requires !Ignored(i) && i.stored && !Available(k, i.direction.value, i.canCreate)
    requires InFlightOk(k, cpus, i.direction.value, a)
    ensures PushedOut(k, i) == k.starts.Keys * i.evicted
  {
    assert forall key :: key in k.starts && key.direction == i.direction.value ==> key in Toward(k.starts.Keys, i.direction.value);
  }

  lemma CompletionMovesStarts(k: Kernel, cpus: nat, d: Direction, e: Completion)
    requires Shaped(k, cpus) && e.cpu < cpus && !Skipped(k, e)
    ensures var before, after := Toward(k.starts.Keys, d), Toward(AfterCompletion(k, cpus, e).starts.Keys, d);
            var key := CompletionKey(e);
            if key in k.starts && key.direction == d
            then |after| + 1 == |before| && Weight(after) + key.bytes == Weight(before)
            else after == before
  {
    var before, key := Toward(k.starts.Keys, d), CompletionKey(e);
    var t := AfterCompletion(k, cpus, e);
    if key in k.starts {
      assert t.starts.Keys == k.starts.Keys - {key};
      if key.direction == d {
        assert Toward(t.starts.Keys, d) == before - {key};
        WeightPick(before, key);
      } else {
        assert Toward(t.starts.Keys, d) == before;
      }
    }
  }

  /** Whether this completion takes a start, and its in-flight contribution, from direction `d`. */
  predicate Takes(k: Kernel, d: Direction, e: Completion) {
    !Skipped(k, e) && CompletionKey(e) in k.starts && e.direction.value == d
  }

  lemma CompletionMovesColumns(k: Kernel, cpus: nat, d: Direction, e: Completion)
    requires Shaped(k, cpus) && e.cpu < cpus
    ensures var c, after := CountersOf(k, cpus, d), CountersOf(AfterCompletion(k, cpus, e), cpus, d);
            && HasWidth(c, cpus) && HasWidth(after, cpus)
            && if Takes(k, d, e) then
                 && after.inFlightBytes == BumpSigned(c.inFlightBytes, e.cpu, -(e.sectors * 512))
                 && after.inFlightOperations == BumpSigned(c.inFlightOperations, e.cpu, -1)
               else
                 && after.inFlightBytes == c.inFlightBytes && after.inFlightOperations == c.inFlightOperations
  {
    if !Skipped(k, e) && e.direction.value == d {
      var counted := CountCompletion(CountersOf(k, cpus, d), cpus, e, Latency(k, e));
      assert HasWidth(counted, cpus);
      assert CountersOf(AfterCompletion(k, cpus, e), cpus, d)
          == if Takes(k, d, e) then MoveInFlight(counted, e.cpu, -(e.sectors * 512), -1) else counted;
    } else {
      assert CountersOf(AfterCompletion(k, cpus, e), cpus, d) == CountersOf(k, cpus, d);
    }
  }

  lemma CompletionMovesAudit(k: Kernel, cpus: nat, a: Audit, d: Direction, e: Completion)
    requires AuditWidth(a, cpus) && e.cpu < cpus
    ensures var b := AuditCompletion(k, cpus, a, d, e);
            && AuditWidth(b, cpus) && b.lost == a.lost
            && if Takes(k, d, e) then
                 && b.inFlightBytes == BumpExact(a.inFlightBytes, e.cpu, -(e.sectors * 512))
                 && b.inFlightOperations == BumpExact(a.inFlightOperations, e.cpu, -1)
               else
                 && b.inFlightBytes == a.inFlightBytes && b.inFlightOperations == a.inFlightOperations
  {
  }

  lemma CompletionKeepsShape(k: Kernel, cpus: nat, e: Completion)
    requires Shaped(k, cpus) && e.cpu < cpus
    ensures Shaped(AfterCompletion(k, cpus, e), cpus)
  {
    forall d | d in AfterCompletion(k, cpus, e).counters
      ensures HasWidth(AfterCompletion(k, cpus, e).counters[d], cpus)
    {
      CompletionMovesColumns(k, cpus, d, e);
    }
  }

  lemma CompletionKeepsInFlight(k: Kernel, cpus: nat, d: Direction, a: Audit, e: Completion)
    requires Shaped(k, cpus) && e.cpu < cpus && InFlightOk(k, cpus, d, a)
    ensures InFlightOk(AfterCompletion(k, cpus, e), cpus, d, AuditCompletion(k, cpus, a, d, e))
  {
    CompletionMovesColumns(k, cpus, d, e);
    CompletionMovesAudit(k, cpus, a, d, e);
    if Takes(k, d, e) {
      CompletionMovesStarts(k, cpus, d, e);
      var c := CountersOf(k, cpus, d);
      BumpSignedTracks(c.inFlightBytes, a.inFlightBytes, e.cpu, -(e.sectors * 512));
      BumpSignedTracks(c.inFlightOperations, a.inFlightOperations, e.cpu, -1);
    } else if !Skipped(k, e) {
      CompletionMovesStarts(k, cpus, d, e);
    }
  }

  // --------------------------------------------------------------- collector

  datatype Reading = Reading(
    bytes: u64, operations: u64, latency: u64, errors: u64, inFlightBytes: s64, inFlightOperations: s64)

  const NO_READING := Reading(0, 0, 0, 0, 0, 0)

  /** One direction's deltas over a window, and the in-flight levels at its end. */
  datatype Window = Window(
    direction: Direction, bytes: u64, operations: u64, latency: u64, errors: u64,
    inFlightBytes: s64, inFlightOperations: s64)

  datatype Sample = Sample(
    direction: Direction, bytes: u64, operations: u64, errors: u64, averageLatency: Option<u64>,
    inFlightOperations: s64, inFlightBytes: s64)

  type Previous = map<Direction, Reading>

  function SumCounters(c: Counters): Reading {
    Reading(SatSum(c.bytes), SatSum(c.operations), SatSum(c.latency), SatSum(c.errors),
            SatSumSigned(c.inFlightBytes), SatSumSigned(c.inFlightOperations))
  }

  function PreviousOf(previous: Previous, d: Direction): Reading {
    if d in previous then previous[d] else NO_READING
  }

  function Difference(d: Direction, before: Reading, current: Reading): Window {
    Window(d, SatSub(current.bytes, before.bytes), SatSub(current.operations, before.operations),
           SatSub(current.latency, before.latency), SatSub(current.errors, before.errors),
           current.inFlightBytes, current.inFlightOperations)
  }

  function AverageLatency(latency: u64, operations: u64): Option<u64> {
    if operations == 0 then None else Some(latency / operations)
  }

  /** What a sample says about latency: within one nanosecond per operation of the window's total. */
  lemma AverageLatencyBounds(latency: u64, operations: u64)
    ensures AverageLatency(latency, operations).None? <==> operations == 0
    ensures operations > 0 ==>
              var average := AverageLatency(latency, operations).value;
              average * operations <= latency < (average + 1) * operations
  {
    if operations > 0 {
      var average := latency / operations;
      assert latency == operations * average + latency % operations;
    }
  }

  function SampleOf(w: Window): Sample {
    Sample(w.direction, w.bytes, w.operations, w.errors, AverageLatency(w.latency, w.operations),
           w.inFlightOperations, w.inFlightBytes)
  }

  datatype MapRead = Failed | ForeignKey | Value(direction: Direction, counters: Counters)

  datatype Collected = Collected(previous: Previous, windows: seq<Window>, failed: bool)

  function CollectAll(previous: Previous, items: seq<MapRead>): Collected {
    if items == [] then Collected(previous, [], false)
    else
      var before := CollectAll(previous, items[..|items| - 1]);
      if before.failed then before
      else
        match items[|items| - 1]
        case Failed => before.(failed := true)
        case ForeignKey => before
        case Value(d, counters) =>
          var current := SumCounters(counters);
          Collected(before.previous[d := current],
                    before.windows + [Difference(d, PreviousOf(before.previous, d), current)], false)
  }

  lemma {:induction false} FailureSticks(previous: Previous, items: seq<MapRead>, n: nat)
    requires n <= |items| && CollectAll(previous, items[..n]).failed
    ensures CollectAll(previous, items) == CollectAll(previous, items[..n])
    decreases |items|
  {
    if n < |items| {
      var shorter := items[..|items| - 1];
      assert shorter[..n] == items[..n];
      FailureSticks(previous, shorter, n);
    } else {
      assert items[..n] == items;
    }
  }

  function SamplesOf(windows: seq<Window>): seq<Sample> {
    seq(|windows|, i requires 0 <= i < |windows| => SampleOf(windows[i]))
  }

  class Collector {
    var previous: Previous

    constructor ()
      ensures previous == map[]
    {
      previous := map[];
    }

    /** `collect`: a failed read returns early, keeping the readings that were already replaced. */
    method Collect(items: seq<MapRead>) returns (r: Result<seq<Sample>, ()>)
      modifies this
      ensures var all := CollectAll(old(previous), items);
              previous == all.previous && r == if all.failed then Err(()) else Ok(SamplesOf(all.windows))
    {
      var samples := [];
      ghost var windows := [];
      for i := 0 to |items|
        invariant CollectAll(old(previous), items[..i]) == Collected(previous, windows, false)
        invariant samples == SamplesOf(windows)
      {
        assert items[..i + 1][..i] == items[..i];
        match items[i]
        case Failed =>
          FailureSticks(old(previous), items, i + 1);
          return Err(());
        case ForeignKey =>
        case Value(d, counters) =>
          var current := SumCounters(counters);
          var before := if d in previous then previous[d] else NO_READING;
          previous := previous[d := current];
          var operations := SatSub(current.operations, before.operations);
          samples := samples + [Sample(
                                  d,
                                  SatSub(current.bytes, before.bytes),
                                  operations,
                                  SatSub(current.errors, before.errors),
                                  AverageLatency(SatSub(current.latency, before.latency), operations),
                                  current.inFlightOperations,
                                  current.inFlightBytes)];
          windows := windows + [Difference(d, before, current)];
      }
      assert items[..|items|] == items;
      return Ok(samples);
    }
  }

  // -------------------------------------------------------- kernel and reader

  /** One value per monotonic column. */
  datatype Totals = Totals(bytes: int, operations: int, latency: int, errors: int)

  datatype Field = Bytes | Operations | Latencies | Errors

  function Amount(w: Window, f: Field): int {
    match f
    case Bytes => w.bytes
    case Operations => w.operations
    case Latencies => w.latency
    case Errors => w.errors
  }

  /** What a list of windows adds up to in one field for one direction. */
  function Total(windows: seq<Window>, d: Direction, f: Field): int {
    if windows == [] then 0
    else
      var last := windows[|windows| - 1];
      Total(windows[..|windows| - 1], d, f) + (if last.direction == d then Amount(last, f) else 0)
  }

  lemma TotalOfOneMore(windows: seq<Window>, w: Window, d: Direction, f: Field)
    ensures Total(windows + [w], d, f) == Total(windows, d, f) + (if w.direction == d then Amount(w, f) else 0)
  {
    assert (windows + [w])[..|windows|] == windows;
  }

  lemma {:induction false} TotalOfConcat(a: seq<Window>, b: seq<Window>, d: Direction, f: Field)
    ensures Total(a + b, d, f) == Total(a, d, f) + Total(b, d, f)
  {
    if b == [] {
      assert a + b == a;
    } else {
      assert (a + b)[..|a + b| - 1] == a + b[..|b| - 1];
      TotalOfConcat(a, b[..|b| - 1], d, f);
    }
  }

  /**
   `pending` holds the windows of the collection under way, `emitted` those of all successful collections and
   `dropped` those of all failed ones. `watched` is the direction under audit; everything below holds for either.
   */
  datatype World = World(
    cpus: nat,
    kernel: Kernel,
    previous: Previous,
    pending: seq<Window>,
    emitted: seq<Window>,
    dropped: seq<Window>,
    watched: Direction,
    audit: Audit)

  datatype Event =
    | Issued(issue: Issue)
    | Completed(completion: Completion)
    | KeyRead(direction: Direction)
    | CollectionEnded(failed: bool)

  function Start(cpus: nat, watched: Direction): World {
    World(cpus, NO_KERNEL, map[], [], [], [], watched, NoAudit(cpus))
  }

  ghost predicate WellFormed(w: World) {
    Shaped(w.kernel, w.cpus) && AuditWidth(w.audit, w.cpus)
  }

  ghost predicate Enabled(w: World, e: Event) {
    match e
    case Issued(i) => WellFormed(w) && i.cpu < w.cpus
    case Completed(c) => WellFormed(w) && c.cpu < w.cpus
    case KeyRead(d) => d in w.kernel.counters
    case CollectionEnded(_) => true
  }

  ghost function Step(w: World, e: Event): World {
    if !Enabled(w, e) then w
    else
      match e
      case Issued(i) =>
        w.(kernel := AfterIssue(w.kernel, w.cpus, i),
           audit := AuditIssue(w.kernel, w.cpus, w.audit, w.watched, i))
      case Completed(c) =>
        w.(kernel := AfterCompletion(w.kernel, w.cpus, c),
           audit := AuditCompletion(w.kernel, w.cpus, w.audit, w.watched, c))
      case KeyRead(d) =>
        var current := SumCounters(w.kernel.counters[d]);
        w.(previous := w.previous[d := current],
           pending := w.pending + [Difference(d, PreviousOf(w.previous, d), current)])
      case CollectionEnded(failed) =>
        if failed then w.(pending := [], dropped := w.dropped + w.pending)
        else w.(pending := [], emitted := w.emitted + w.pending)
  }

  ghost function Run(w: World, events: seq<Event>): World
    decreases |events|
  {
    if events == [] then w else Run(Step(w, events[0]), events[1..])
  }

  lemma CollectOneMore(w: World, keys: seq<Direction>, d: Direction)
    requires d in w.kernel.counters && forall i :: 0 <= i < |keys| ==> keys[i] in w.kernel.counters
    requires !CollectAll(w.previous, ValuesOf(w, keys)).failed
    ensures var before, current := CollectAll(w.previous, ValuesOf(w, keys)), SumCounters(w.kernel.counters[d]);
            CollectAll(w.previous, ValuesOf(w, keys + [d]))
            == Collected(before.previous[d := current],
                         before.windows + [Difference(d, PreviousOf(before.previous, d), current)], false)
  {
    assert ValuesOf(w, keys + [d])[..|keys|] == ValuesOf(w, keys);
  }

  lemma ReadOneMore(w: World, before: Collected, d: Direction)
    requires d in w.kernel.counters
    ensures var current := SumCounters(w.kernel.counters[d]);
            Step(w.(previous := before.previous, pending := w.pending + before.windows), KeyRead(d))
            == w.(previous := before.previous[d := current],
                  pending := w.pending + (before.windows + [Difference(d, PreviousOf(before.previous, d), current)]))
  {
  }

  /** One uninterrupted pass of `collect` is one key read per item, in order: its windows are what gets emitted. */
  lemma {:induction false} CollectIsKeyReads(w: World, keys: seq<Direction>)
    requires forall i :: 0 <= i < |keys| ==> keys[i] in w.kernel.counters
    ensures var all := CollectAll(w.previous, ValuesOf(w, keys));
            !all.failed && Run(w, ReadsOf(keys)) == w.(previous := all.previous, pending := w.pending + all.windows)
  {
    if keys == [] {
      assert w.pending + [] == w.pending;
    } else {
      var last := |keys| - 1;
      var d, shorter := keys[last], keys[..last];
      assert keys == shorter + [d];
      CollectIsKeyReads(w, shorter);
      CollectOneMore(w, shorter, d);
      ReadOneMore(w, CollectAll(w.previous, ValuesOf(w, shorter)), d);
      ReadsOneMore(w, shorter, d);
    }
  }

  lemma ReadsOneMore(w: World, keys: seq<Direction>, d: Direction)
    ensures Run(w, ReadsOf(keys + [d])) == Step(Run(w, ReadsOf(keys)), KeyRead(d))
  {
    assert ReadsOf(keys + [d]) == ReadsOf(keys) + [KeyRead(d)];
    RunAppend(w, ReadsOf(keys), KeyRead(d));
  }

  lemma FailureEndsPass(previous: Previous, values: seq<MapRead>, unread: seq<MapRead>)
    requires !CollectAll(previous, values).failed
    ensures CollectAll(previous, values + [Failed] + unread) == CollectAll(previous, values).(failed := true)
  {
    assert (values + [Failed])[..|values|] == values;
    assert (values + [Failed] + unread)[..|values| + 1] == values + [Failed];
    FailureSticks(previous, values + [Failed] + unread, |values| + 1);
  }

  /** A read that fails ends the pass there: the readings before it stay replaced and their windows are dropped. */
  lemma FailedCollectIsKeyReads(w: World, keys: seq<Direction>, unread: seq<MapRead>)
    requires forall i :: 0 <= i < |keys| ==> keys[i] in w.kernel.counters
    ensures var all := CollectAll(w.previous, ValuesOf(w, keys));
            && CollectAll(w.previous, ValuesOf(w, keys) + [Failed] + unread) == all.(failed := true)
            && Run(w, ReadsOf(keys) + [CollectionEnded(true)])
               == w.(previous := all.previous, pending := [], dropped := w.dropped + (w.pending + all.windows))
  {
    CollectIsKeyReads(w, keys);
    FailureEndsPass(w.previous, ValuesOf(w, keys), unread);
    RunAppend(w, ReadsOf(keys), CollectionEnded(true));
  }

  /** Keys of other directions are passed over. */
  lemma {:induction false} ForeignKeysAreSkipped(previous: Previous, early: seq<MapRead>, late: seq<MapRead>)
    ensures CollectAll(previous, early + [ForeignKey] + late) == CollectAll(previous, early + late)
  {
    if late == [] {
      assert early + [] == early && early + [ForeignKey] + [] == early + [ForeignKey];
      assert (early + [ForeignKey])[..|early|] == early;
    } else {
      var n := |late| - 1;
      ForeignKeysAreSkipped(previous, early, late[..n]);
      assert (early + [ForeignKey] + late)[..|early| + 1 + n] == early + [ForeignKey] + late[..n];
      assert (early + late)[..|early| + n] == early + late[..n];
    }
  }

  ghost function ReadsOf(keys: seq<Direction>): seq<Event> {
    seq(|keys|, i requires 0 <= i < |keys| => KeyRead(keys[i]))
  }

  ghost function ValuesOf(w: World, keys: seq<Direction>): seq<MapRead>
    requires forall i :: 0 <= i < |keys| ==> keys[i] in w.kernel.counters
  {
    seq(|keys|, i requires 0 <= i < |keys| => Value(keys[i], w.kernel.counters[keys[i]]))
  }

  lemma {:induction false} RunAppend(w: World, events: seq<Event>, e: Event)
    ensures Run(w, events + [e]) == Step(Run(w, events), e)
    decreases |events|
  {
    if events == [] {
      assert [] + [e] == [e] && [e][1..] == [];
      assert Run(Step(w, e), []) == Step(w, e);
    } else {
      assert (events + [e])[1..] == events[1..] + [e];
      RunAppend(Step(w, events[0]), events[1..], e);
    }
  }

  /** Everything ever reported for the watched direction: emitted, dropped by a failed collection, or pending. */
  function ReportedIn(w: World, f: Field): int {
    Total(w.emitted, w.watched, f) + Total(w.dropped, w.watched, f) + Total(w.pending, w.watched, f)
  }

  function Reported(w: World): Totals {
    Totals(ReportedIn(w, Bytes), ReportedIn(w, Operations), ReportedIn(w, Latencies), ReportedIn(w, Errors))
  }

  lemma ReadReports(w: World, read: Direction, f: Field)
    requires read in w.kernel.counters
    ensures var window := Difference(read, PreviousOf(w.previous, read), SumCounters(w.kernel.counters[read]));
            ReportedIn(Step(w, KeyRead(read)), f) == ReportedIn(w, f) + (if read == w.watched then Amount(window, f) else 0)
  {
    var window := Difference(read, PreviousOf(w.previous, read), SumCounters(w.kernel.counters[read]));
    TotalOfOneMore(w.pending, window, w.watched, f);
  }

  ghost predicate CountersOk(c: Counters, a: Audit, before: Reading, reported: Totals) {
    && Telescoped(c.bytes, a.bytes, before.bytes, reported.bytes)
    && Telescoped(c.operations, a.operations, before.operations, reported.operations)
    && Telescoped(c.latency, a.latency, before.latency, reported.latency)
    && Telescoped(c.errors, a.errors, before.errors, reported.errors)
  }

  ghost predicate InFlightInv(w: World) {
    WellFormed(w) && InFlightOk(w.kernel, w.cpus, w.watched, w.audit)
  }

  ghost predicate ReportInv(w: World) {
    CountersOk(CountersOf(w.kernel, w.cpus, w.watched), w.audit, PreviousOf(w.previous, w.watched), Reported(w))
  }

  ghost predicate Inv(w: World) {
    InFlightInv(w) && ReportInv(w)
  }

  lemma StartInFlightOk(cpus: nat, d: Direction)
    ensures InFlightOk(NO_KERNEL, cpus, d, NoAudit(cpus))
  {
    SumZeros(Zeros(cpus));
    var none: set<RequestKey> := {};
    assert Toward(none, d) == {} && NO_KERNEL.starts.Keys == none;
  }

  lemma StartCountersOk(cpus: nat)
    ensures CountersOk(NoCounters(cpus), NoAudit(cpus), NO_READING, Totals(0, 0, 0, 0))
  {
    StartTelescoped(Zeros(cpus), Zeros(cpus));
  }

  lemma StartOk(cpus: nat, watched: Direction)
    ensures Inv(Start(cpus, watched))
  {
    assert Reported(Start(cpus, watched)) == Totals(0, 0, 0, 0);
    StartInFlightOk(cpus, watched);
    StartCountersOk(cpus);
  }

  lemma IssueKeepsCounters(k: Kernel, cpus: nat, d: Direction, a: Audit, i: Issue, before: Reading, reported: Totals)
    requires Shaped(k, cpus) && i.cpu < cpus && AuditWidth(a, cpus)
    requires CountersOk(CountersOf(k, cpus, d), a, before, reported)
    ensures CountersOk(CountersOf(AfterIssue(k, cpus, i), cpus, d), AuditIssue(k, cpus, a, d, i), before, reported)
  {
    IssueMovesColumns(k, cpus, d, i);
  }

  /** Counting one completion on both the words and the exact columns keeps every field's law. */
  lemma CountKeeps(c: Counters, a: Audit, cpus: nat, e: Completion, latency: u64, before: Reading, reported: Totals)
    requires HasWidth(c, cpus) && AuditWidth(a, cpus) && e.cpu < cpus && CountersOk(c, a, before, reported)
    ensures CountersOk(CountCompletion(c, cpus, e, latency), CountExactly(a, cpus, e, latency), before, reported)
  {
    BumpKeeps(c.latency, a.latency, before.latency, reported.latency, e.cpu, latency);
    BumpKeeps(c.errors, a.errors, before.errors, reported.errors, e.cpu, 1);
    BumpKeeps(c.bytes, a.bytes, before.bytes, reported.bytes, e.cpu, e.sectors * 512);
    BumpKeeps(c.operations, a.operations, before.operations, reported.operations, e.cpu, 1);
  }

  lemma CompletionKeepsCounters(k: Kernel, cpus: nat, d: Direction, a: Audit, e: Completion, before: Reading, reported: Totals)
    requires Shaped(k, cpus) && e.cpu < cpus && AuditWidth(a, cpus)
    requires CountersOk(CountersOf(k, cpus, d), a, before, reported)
    ensures CountersOk(CountersOf(AfterCompletion(k, cpus, e), cpus, d), AuditCompletion(k, cpus, a, d, e), before, reported)
  {
    var c, t := CountersOf(k, cpus, d), CountersOf(AfterCompletion(k, cpus, e), cpus, d);
    if Skipped(k, e) || e.direction.value != d {
      assert t == c;
    } else {
      var counted := CountCompletion(c, cpus, e, Latency(k, e));
      CountKeeps(c, a, cpus, e, Latency(k, e), before, reported);
      assert t == if Takes(k, d, e) then MoveInFlight(counted, e.cpu, -(e.sectors * 512), -1) else counted;
    }
  }

  /** Reporting the difference to the previous reading keeps every field's law. */
  lemma DifferenceKeeps(c: Counters, a: Audit, d: Direction, before: Reading, reported: Totals)
    requires CountersOk(c, a, before, reported)
    ensures var window := Difference(d, before, SumCounters(c));
            CountersOk(c, a, SumCounters(c),
                       Totals(reported.bytes + window.bytes, reported.operations + window.operations,
                              reported.latency + window.latency, reported.errors + window.errors))
  {
    ReadKeeps(c.bytes, a.bytes, before.bytes, reported.bytes);
    ReadKeeps(c.operations, a.operations, before.operations, reported.operations);
    ReadKeeps(c.latency, a.latency, before.latency, reported.latency);
    ReadKeeps(c.errors, a.errors, before.errors, reported.errors);
  }

  lemma ReportedAfterRead(w: World, read: Direction)
    requires read in w.kernel.counters
    ensures var r, window := Reported(w), Difference(read, PreviousOf(w.previous, read), SumCounters(w.kernel.counters[read]));
            Reported(Step(w, KeyRead(read)))
            == if read == w.watched
               then Totals(r.bytes + window.bytes, r.operations + window.operations,
                           r.latency + window.latency, r.errors + window.errors)
               else r
  {
    ReadReports(w, read, Bytes);
    ReadReports(w, read, Operations);
    ReadReports(w, read, Latencies);
    ReadReports(w, read, Errors);
  }

  lemma ReadMoves(w: World, read: Direction)
    requires read in w.kernel.counters
    ensures var t, current := Step(w, KeyRead(read)), SumCounters(w.kernel.counters[read]);
            && t == w.(previous := t.previous, pending := t.pending)
            && PreviousOf(t.previous, w.watched) == if read == w.watched then current else PreviousOf(w.previous, w.watched)
  {
  }

  lemma ReadKeepsReport(w: World, read: Direction)
    requires ReportInv(w) && read in w.kernel.counters
    ensures ReportInv(Step(w, KeyRead(read)))
  {
    ReadMoves(w, read);
    ReportedAfterRead(w, read);
    if read == w.watched {
      DifferenceKeeps(w.kernel.counters[read], w.audit, read, PreviousOf(w.previous, read), Reported(w));
    }
  }

  lemma IssuedKeepsInFlight(w: World, i: Issue)
    requires InFlightInv(w) && i.cpu < w.cpus
    ensures InFlightInv(Step(w, Issued(i)))
  {
    IssueMovesColumns(w.kernel, w.cpus, w.watched, i);
    IssueKeepsInFlight(w.kernel, w.cpus, w.watched, w.audit, i);
  }

  lemma IssuedKeepsReport(w: World, i: Issue)
    requires WellFormed(w) && ReportInv(w) && i.cpu < w.cpus
    ensures ReportInv(Step(w, Issued(i)))
  {
    IssueKeepsCounters(w.kernel, w.cpus, w.watched, w.audit, i, PreviousOf(w.previous, w.watched), Reported(w));
  }

  lemma CompletedKeepsInFlight(w: World, e: Completion)
    requires InFlightInv(w) && e.cpu < w.cpus
    ensures InFlightInv(Step(w, Completed(e)))
  {
    CompletionKeepsShape(w.kernel, w.cpus, e);
    CompletionMovesAudit(w.kernel, w.cpus, w.audit, w.watched, e);
    CompletionKeepsInFlight(w.kernel, w.cpus, w.watched, w.audit, e);
  }

  lemma CompletedKeepsReport(w: World, e: Completion)
    requires WellFormed(w) && ReportInv(w) && e.cpu < w.cpus
    ensures ReportInv(Step(w, Completed(e)))
  {
    CompletionKeepsCounters(w.kernel, w.cpus, w.watched, w.audit, e, PreviousOf(w.previous, w.watched), Reported(w));
  }

  lemma EndReports(w: World, failed: bool, f: Field)
    ensures ReportedIn(Step(w, CollectionEnded(failed)), f) == ReportedIn(w, f)
  {
    TotalOfConcat(w.emitted, w.pending, w.watched, f);
    TotalOfConcat(w.dropped, w.pending, w.watched, f);
  }

  lemma EndKeeps(w: World, failed: bool)
    requires ReportInv(w)
    ensures ReportInv(Step(w, CollectionEnded(failed)))
  {
    EndReports(w, failed, Bytes);
    EndReports(w, failed, Operations);
    EndReports(w, failed, Latencies);
    EndReports(w, failed, Errors);
  }

  lemma StepKeeps(w: World, e: Event)
    requires Inv(w)
    ensures Inv(Step(w, e))
  {
    if Enabled(w, e) {
      match e
      case Issued(i) =>
        IssuedKeepsInFlight(w, i);
        IssuedKeepsReport(w, i);
      case Completed(c) =>
        CompletedKeepsInFlight(w, c);
        CompletedKeepsReport(w, c);
      case KeyRead(read) => ReadKeepsReport(w, read);
      case CollectionEnded(failed) => EndKeeps(w, failed);
    }
  }

  lemma {:induction false} RunKeeps(w: World, events: seq<Event>)
    requires Inv(w)
    ensures Inv(Run(w, events))
    decreases |events|
  {
    if events != [] {
      var v := Step(w, events[0]);
      assert Inv(v) by {
        StepKeeps(w, events[0]);
      }
      RunKeeps(v, events[1..]);
      assert Run(w, events) == Run(v, events[1..]);
    }
  }

  lemma {:induction false} WatchedStays(w: World, events: seq<Event>)
    ensures Run(w, events).watched == w.watched
    decreases |events|
  {
    if events != [] {
      WatchedStays(Step(w, events[0]), events[1..]);
    }
  }

  // ------------------------------------------------------------ main results

  /**
   The exact per-CPU contributions add up to the live starts plus the lost ones, hence never below zero,
   and the collector reads that sum exactly while the columns stay clear of the 64-bit limits.
   */
  ghost predicate InFlightConserved(w: World) {
    var a, live := w.audit, Toward(w.kernel.starts.Keys, w.watched);
    var reading := SumCounters(CountersOf(w.kernel, w.cpus, w.watched));
    && Sum(a.inFlightOperations) == |live| + a.lost.operations
    && Sum(a.inFlightBytes) == Weight(live) + a.lost.bytes
    && (Magnitude(a.inFlightOperations) < S64_LIMIT ==> reading.inFlightOperations == |live| + a.lost.operations)
    && (Magnitude(a.inFlightBytes) < S64_LIMIT ==> reading.inFlightBytes == Weight(live) + a.lost.bytes)
  }

  /** In-flight conservation over every interleaving of issues, completions and collections. */
  lemma InFlightIsConserved(cpus: nat, watched: Direction, events: seq<Event>)
    ensures InFlightConserved(Run(Start(cpus, watched), events)) && Run(Start(cpus, watched), events).watched == watched
  {
    WatchedStays(Start(cpus, watched), events);
    StartOk(cpus, watched);
    RunKeeps(Start(cpus, watched), events);
    InFlightReading(Run(Start(cpus, watched), events));
  }

  lemma InFlightReading(w: World)
    requires Inv(w)
    ensures InFlightConserved(w)
  {
    var c, a := CountersOf(w.kernel, w.cpus, w.watched), w.audit;
    if Magnitude(a.inFlightOperations) < S64_LIMIT {
      SignedReadIsExact(c.inFlightOperations, a.inFlightOperations);
    }
    if Magnitude(a.inFlightBytes) < S64_LIMIT {
      SignedReadIsExact(c.inFlightBytes, a.inFlightBytes);
    }
  }

  /** A single CPU's in-flight counter does go negative: issue on CPU 0, complete on CPU 1. */
  lemma SingleCpuCanGoNegative(key: RequestKey, now: u64) returns (issue: Issue, completion: Completion)
    requires key.bytes == 512
    ensures issue.cpu == 0 && completion.cpu == 1
    ensures var k := AfterCompletion(AfterIssue(NO_KERNEL, 2, issue), 2, completion);
            k.starts == map[] && CountersOf(k, 2, key.direction).inFlightOperations == [1, -1]
  {
    issue := Issue(0, now, key.dev, key.sector, 512, Some(key.direction), {}, true, true);
    completion := Completion(1, now, key.dev, key.sector, 1, 0, Some(key.direction), true);
    assert CompletionKey(completion) == key == IssueKey(issue);
    var k := AfterIssue(NO_KERNEL, 2, issue);
    assert k.starts == map[key := now];
    assert k.counters[key.direction].inFlightOperations == [1, 0];
  }

  /** Reports so far plus what the kernel holds beyond the last reading make up the exact total. */
  predicate FieldConserved(exact: seq<int>, now: u64, before: u64, reported: int) {
    Sum(exact) < U64_LIMIT ==> reported + (now - before) == Sum(exact) && now >= before
  }

  ghost predicate ReportsConserved(w: World) {
    var a, r := w.audit, Reported(w);
    var now, before := SumCounters(CountersOf(w.kernel, w.cpus, w.watched)), PreviousOf(w.previous, w.watched);
    && FieldConserved(a.bytes, now.bytes, before.bytes, r.bytes)
    && FieldConserved(a.operations, now.operations, before.operations, r.operations)
    && FieldConserved(a.latency, now.latency, before.latency, r.latency)
    && FieldConserved(a.errors, now.errors, before.errors, r.errors)
  }

  lemma CountersReading(c: Counters, a: Audit, before: Reading, reported: Totals)
    requires CountersOk(c, a, before, reported)
    ensures FieldConserved(a.bytes, SatSum(c.bytes), before.bytes, reported.bytes)
    ensures FieldConserved(a.operations, SatSum(c.operations), before.operations, reported.operations)
    ensures FieldConserved(a.latency, SatSum(c.latency), before.latency, reported.latency)
    ensures FieldConserved(a.errors, SatSum(c.errors), before.errors, reported.errors)
  {
    ReadKeeps(c.bytes, a.bytes, before.bytes, reported.bytes);
    ReadKeeps(c.operations, a.operations, before.operations, reported.operations);
    ReadKeeps(c.latency, a.latency, before.latency, reported.latency);
    ReadKeeps(c.errors, a.errors, before.errors, reported.errors);
  }

  lemma ReportsReading(w: World)
    requires Inv(w)
    ensures ReportsConserved(w)
  {
    CountersReading(CountersOf(w.kernel, w.cpus, w.watched), w.audit, PreviousOf(w.previous, w.watched), Reported(w));
  }

  /** Only a failed collection drops anything. */
  lemma {:induction false} NothingDroppedWithoutFailure(w: World, events: seq<Event>)
    requires forall i :: 0 <= i < |events| ==> events[i] != CollectionEnded(true)
    ensures Run(w, events).dropped == w.dropped
    decreases |events|
  {
    if events != [] {
      assert forall i :: 0 <= i < |events[1..]| ==> events[1..][i] == events[i + 1];
      NothingDroppedWithoutFailure(Step(w, events[0]), events[1..]);
    }
  }
}
