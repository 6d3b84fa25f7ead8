/**
 What the disk counters must come to, read off the events alone: which requests are outstanding since when, and
 what the finished ones add up to. No CPU, no wrapping, no map of counters; every run of the ledger agrees with it.
 */
module DiskReference {
  import opened Common
  import opened PerCpu
  import opened DiskLedger

  /**
   The account of one direction: the outstanding requests of both with their issue times, the directions seen, the
   starts that went missing, and what the completions add up to.
   */
  datatype Account = Account(
    outstanding: map<RequestKey, u64>,
    seen: set<Direction>,
    lost: Lost,
    bytes: nat, operations: nat, latency: nat, errors: nat)

  const EMPTY_ACCOUNT := Account(map[], {}, Lost(0, 0), 0, 0, 0, 0)

  /** A start goes missing when it is evicted, or when the same request is issued again before it completed. */
  ghost function AfterIssued(r: Account, d: Direction, i: Issue): Account {
    if i.bytes == 0 || i.direction.None? then r
    else
      var key := RequestKey(i.sector, i.dev, i.bytes, i.direction.value);
      var gone := set s | s in r.outstanding && s.direction == d && (s in i.evicted || (i.stored && s == key));
      var left := r.(outstanding := r.outstanding - i.evicted,
                     lost := Lost(r.lost.operations + |gone|, r.lost.bytes + Weight(gone)));
      if !i.stored then left
      else if key.direction in r.seen || i.canCreate
      then left.(outstanding := left.outstanding[key := i.now], seen := r.seen + {key.direction})
      else left.(outstanding := left.outstanding - {key})
  }

  /** A finished request counts its bytes or its error, and how long it took. */
  function Finished(r: Account, c: Completion, waited: nat): Account {
    if c.error != 0 then r.(latency := r.latency + waited, errors := r.errors + 1)
    else r.(latency := r.latency + waited, bytes := r.bytes + c.sectors * 512, operations := r.operations + 1)
  }

  /** A completion counts for its direction, and took the time since the issue of the request it finishes. */
  function AfterCompleted(r: Account, d: Direction, c: Completion): Account {
    if c.sectors == 0 || c.direction.None? || c.sectors * 512 >= 0x1_0000_0000 then r
    else if c.direction.value !in r.seen && !c.canCreate then r
    else
      var key := RequestKey(c.sector, c.dev, c.sectors * 512, c.direction.value);
      var waited := if key in r.outstanding then (c.now - r.outstanding[key]) % 0x1_0000_0000_0000_0000 else 0;
      var left := r.(outstanding := r.outstanding - {key}, seen := r.seen + {key.direction});
      if key.direction == d then Finished(left, c, waited) else left
  }

  ghost function AccountStep(r: Account, cpus: nat, d: Direction, e: Event): Account {
    match e
    case Issued(i) => if i.cpu < cpus then AfterIssued(r, d, i) else r
    case Completed(c) => if c.cpu < cpus then AfterCompleted(r, d, c) else r
    case KeyRead(_) => r
    case CollectionEnded(_) => r
  }

  ghost function AccountOf(r: Account, cpus: nat, d: Direction, events: seq<Event>): Account
    decreases |events|
  {
    if events == [] then r else AccountOf(AccountStep(r, cpus, d, events[0]), cpus, d, events[1..])
  }

  // -------------------------------------------------------------- the ledger agrees

  ghost predicate SameStarts(k: Kernel, r: Account) {
    k.starts == r.outstanding && k.counters.Keys == r.seen
  }

  predicate SameTotals(a: Audit, r: Account) {
    && a.lost == r.lost
    && Sum(a.bytes) == r.bytes && Sum(a.operations) == r.operations
    && Sum(a.latency) == r.latency && Sum(a.errors) == r.errors
  }

  ghost predicate Agrees(w: World, r: Account) {
    SameStarts(w.kernel, r) && SameTotals(w.audit, r)
  }

  lemma IssuedStarts(k: Kernel, cpus: nat, r: Account, d: Direction, i: Issue)
    requires Shaped(k, cpus) && i.cpu < cpus && SameStarts(k, r)
    ensures SameStarts(AfterIssue(k, cpus, i), AfterIssued(r, d, i))
  {
  }

  lemma IssuedTotals(k: Kernel, cpus: nat, a: Audit, r: Account, d: Direction, i: Issue)
    requires AuditWidth(a, cpus) && i.cpu < cpus && SameStarts(k, r) && SameTotals(a, r)
    ensures SameTotals(AuditIssue(k, cpus, a, d, i), AfterIssued(r, d, i))
  {
    if !Ignored(i) {
      var key := IssueKey(i);
      assert Toward(PushedOut(k, i), d)
          == set s | s in r.outstanding && s.direction == d && (s in i.evicted || (i.stored && s == key));
    }
  }

  lemma IssuedAgrees(w: World, r: Account, i: Issue)
    requires WellFormed(w) && i.cpu < w.cpus && Agrees(w, r)
    ensures Agrees(Step(w, Issued(i)), AfterIssued(r, w.watched, i))
  {
    IssuedStarts(w.kernel, w.cpus, r, w.watched, i);
    IssuedTotals(w.kernel, w.cpus, w.audit, r, w.watched, i);
  }

  lemma CompletedStarts(k: Kernel, cpus: nat, r: Account, d: Direction, c: Completion)
    requires Shaped(k, cpus) && c.cpu < cpus && SameStarts(k, r)
    ensures SameStarts(AfterCompletion(k, cpus, c), AfterCompleted(r, d, c))
  {
    if !Skipped(k, c) {
      var t := AfterCompletion(k, cpus, c);
      assert t.starts == k.starts - {CompletionKey(c)};
      assert t.counters.Keys == k.counters.Keys + {c.direction.value};
    }
  }

  /** What a completion adds to the exact columns, all CPUs taken together. */
  lemma CountedTotals(cpus: nat, a: Audit, r: Account, c: Completion, waited: u64)
    requires AuditWidth(a, cpus) && c.cpu < cpus && SameTotals(a, r)
    ensures SameTotals(CountExactly(a, cpus, c, waited), Finished(r, c, waited))
  {
  }

  lemma CompletedTotals(k: Kernel, cpus: nat, a: Audit, r: Account, d: Direction, c: Completion)
    requires AuditWidth(a, cpus) && c.cpu < cpus && SameStarts(k, r) && SameTotals(a, r)
    ensures SameTotals(AuditCompletion(k, cpus, a, d, c), AfterCompleted(r, d, c))
  {
    if !Skipped(k, c) {
      var key := CompletionKey(c);
      CountedTotals(cpus, a, r.(outstanding := r.outstanding - {key}, seen := r.seen + {key.direction}), c, Latency(k, c));
    }
  }

  lemma CompletedAgrees(w: World, r: Account, c: Completion)
    requires WellFormed(w) && c.cpu < w.cpus && Agrees(w, r)
    ensures Agrees(Step(w, Completed(c)), AfterCompleted(r, w.watched, c))
  {
    CompletedStarts(w.kernel, w.cpus, r, w.watched, c);
    CompletedTotals(w.kernel, w.cpus, w.audit, r, w.watched, c);
  }

  lemma StepAgrees(w: World, r: Account, e: Event)
    requires WellFormed(w) && Agrees(w, r)
    ensures Agrees(Step(w, e), AccountStep(r, w.cpus, w.watched, e))
  {
    match e
    case Issued(i) => if i.cpu < w.cpus { IssuedAgrees(w, r, i); }
    case Completed(c) => if c.cpu < w.cpus { CompletedAgrees(w, r, c); }
    case KeyRead(_) =>
    case CollectionEnded(_) =>
  }

  lemma StepIsWatched(w: World, e: Event)
    ensures Step(w, e).cpus == w.cpus && Step(w, e).watched == w.watched
  {
  }

  lemma {:induction false} RunAgrees(w: World, r: Account, events: seq<Event>)
    requires Inv(w) && Agrees(w, r)
    ensures var t := Run(w, events);
            Inv(t) && t.watched == w.watched && t.cpus == w.cpus && Agrees(t, AccountOf(r, w.cpus, w.watched, events))
    decreases |events|
  {
    if events != [] {
      var e := events[0];
      StepKeeps(w, e);
      StepAgrees(w, r, e);
      StepIsWatched(w, e);
      RunAgrees(Step(w, e), AccountStep(r, w.cpus, w.watched, e), events[1..]);
    }
  }

  lemma StartAgrees(cpus: nat, watched: Direction)
    ensures Agrees(Start(cpus, watched), EMPTY_ACCOUNT)
  {
    SumZeros(NoAudit(cpus).bytes);
    assert NO_KERNEL.counters.Keys == {};
  }

  lemma ReachableAgrees(cpus: nat, watched: Direction, events: seq<Event>)
    ensures var w := Run(Start(cpus, watched), events);
            && Inv(w) && w.watched == watched && w.cpus == cpus
            && Agrees(w, AccountOf(EMPTY_ACCOUNT, cpus, watched, events))
  {
    var start := Start(cpus, watched);
    StartOk(cpus, watched);
    StartAgrees(cpus, watched);
    RunAgrees(start, EMPTY_ACCOUNT, events);
  }

  // ------------------------------------------------------------------ samples

  /** What a list of samples adds up to in one field for one direction. */
  function SampleSum(samples: seq<Sample>, d: Direction, field: Sample -> int): int {
    if samples == [] then 0
    else
      var last := samples[|samples| - 1];
      SampleSum(samples[..|samples| - 1], d, field) + (if last.direction == d then field(last) else 0)
  }

  function BytesIn(windows: seq<Window>, d: Direction): int {
    SampleSum(SamplesOf(windows), d, (s: Sample) => s.bytes)
  }

  function OperationsIn(windows: seq<Window>, d: Direction): int {
    SampleSum(SamplesOf(windows), d, (s: Sample) => s.operations)
  }

  function ErrorsIn(windows: seq<Window>, d: Direction): int {
    SampleSum(SamplesOf(windows), d, (s: Sample) => s.errors)
  }

  /** The windows' latency, of which a sample only shows the average. */
  function LatencyIn(windows: seq<Window>, d: Direction): int {
    if windows == [] then 0
    else
      var last := windows[|windows| - 1];
      LatencyIn(windows[..|windows| - 1], d) + (if last.direction == d then last.latency else 0)
  }

  lemma {:induction false} SamplesAddUp(windows: seq<Window>, d: Direction)
    ensures BytesIn(windows, d) == Total(windows, d, Bytes)
    ensures OperationsIn(windows, d) == Total(windows, d, Operations)
    ensures ErrorsIn(windows, d) == Total(windows, d, Errors)
    ensures LatencyIn(windows, d) == Total(windows, d, Latencies)
  {
    if windows != [] {
      var shorter := windows[..|windows| - 1];
      SamplesAddUp(shorter, d);
      assert SamplesOf(windows)[..|windows| - 1] == SamplesOf(shorter);
    }
  }

  /** A sample's average: none without operations, else its window's latency per operation, rounded down. */
  lemma SampleAverage(windows: seq<Window>, i: nat)
    requires i < |windows|
    ensures var sample, w := SamplesOf(windows)[i], windows[i];
            && sample.direction == w.direction && sample.operations == w.operations
            && (sample.averageLatency.None? <==> sample.operations == 0)
            && (sample.averageLatency.Some? ==>
                  sample.averageLatency.value * sample.operations <= w.latency
                  < (sample.averageLatency.value + 1) * sample.operations)
  {
    AverageLatencyBounds(windows[i].latency, windows[i].operations);
  }

  // ------------------------------------------------------------- main results

  /** What was reported, and what the kernel holds beyond the last reading, make up the account's total. */
  predicate Conserved(total: nat, reported: int, now: u64, before: u64) {
    total < U64_LIMIT ==> reported + (now - before) == total && now >= before
  }

  ghost predicate ReportsMatch(w: World, d: Direction, r: Account) {
    var now, before := SumCounters(CountersOf(w.kernel, w.cpus, d)), PreviousOf(w.previous, d);
    && Conserved(r.bytes, BytesIn(w.emitted, d) + BytesIn(w.dropped, d) + BytesIn(w.pending, d), now.bytes, before.bytes)
    && Conserved(r.operations, OperationsIn(w.emitted, d) + OperationsIn(w.dropped, d) + OperationsIn(w.pending, d),
                 now.operations, before.operations)
    && Conserved(r.errors, ErrorsIn(w.emitted, d) + ErrorsIn(w.dropped, d) + ErrorsIn(w.pending, d), now.errors, before.errors)
    && Conserved(r.latency, LatencyIn(w.emitted, d) + LatencyIn(w.dropped, d) + LatencyIn(w.pending, d),
                 now.latency, before.latency)
  }

  /**
   Over every interleaving of issues, completions and collections: the bytes, operations, errors and latency
   reported for a direction add up to what its completed requests come to, whose latency is the time from their issue.
   */
  lemma ReportsAreConserved(cpus: nat, d: Direction, events: seq<Event>)
    ensures ReportsMatch(Run(Start(cpus, d), events), d, AccountOf(EMPTY_ACCOUNT, cpus, d, events))
  {
    ReachableAgrees(cpus, d, events);
    var w := Run(Start(cpus, d), events);
    ReportsReading(w);
    SamplesAddUp(w.emitted, d);
    SamplesAddUp(w.dropped, d);
    SamplesAddUp(w.pending, d);
  }

  /** The sample a read of a direction adds. */
  ghost function ReadSample(w: World, d: Direction): Sample
    requires d in w.kernel.counters
  {
    SampleOf(Step(w, KeyRead(d)).pending[|w.pending|])
  }

  /**
   In every run a sample's in-flight figures are the outstanding requests of its direction plus those that went
   missing, while the columns stay clear of the 64-bit limits; so they are never negative.
   */
  lemma InFlightIsReported(cpus: nat, d: Direction, events: seq<Event>)
    requires d in Run(Start(cpus, d), events).kernel.counters
    ensures var w, r := Run(Start(cpus, d), events), AccountOf(EMPTY_ACCOUNT, cpus, d, events);
            var open := set key | key in r.outstanding && key.direction == d;
            && ReadSample(w, d).direction == d
            && (Magnitude(w.audit.inFlightOperations) < S64_LIMIT ==>
                  ReadSample(w, d).inFlightOperations == |open| + r.lost.operations)
            && (Magnitude(w.audit.inFlightBytes) < S64_LIMIT ==>
                  ReadSample(w, d).inFlightBytes == Weight(open) + r.lost.bytes)
  {
    ReachableAgrees(cpus, d, events);
    var w, r := Run(Start(cpus, d), events), AccountOf(EMPTY_ACCOUNT, cpus, d, events);
    InFlightReading(w);
    assert Toward(w.kernel.starts.Keys, d) == set key | key in r.outstanding && key.direction == d;
  }
}
