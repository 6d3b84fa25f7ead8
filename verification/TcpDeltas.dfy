/**
 Per-pod TCP counters: cumulative procfs snapshots turned into interval deltas against a baseline
 per pod UID, under churn, PID changes, counter resets, unreadable rounds and failed discovery.
 */
module TcpDeltas {
  import opened Common

  type Uid = string

  datatype Snapshot = Snapshot(
    retransSegs: u64, outSegs: u64, inSegs: u64, currEstab: u64, tcpTimeouts: u64, tcpFastRetrans: u64)

  datatype Metric = Retransmits | SegmentsSent | SegmentsReceived | Timeouts | FastRetransmits

  function Count(s: Snapshot, m: Metric): u64 {
    match m
    case Retransmits => s.retransSegs
    case SegmentsSent => s.outSegs
    case SegmentsReceived => s.inSegs
    case Timeouts => s.tcpTimeouts
    case FastRetransmits => s.tcpFastRetrans
  }

  /** A discovered pod and what its two procfs files yielded; None if they could not be read. */
  datatype Pod = Pod(uid: Uid, pid: nat, snapshot: Option<Snapshot>)

  /** One collection: discovery failed, or it listed these pods. */
  datatype Round = DiscoveryFailed | Discovered(pods: seq<Pod>)

  datatype Sample = Gauge(uid: Uid, established: u64) | Counter(uid: Uid, metric: Metric, delta: u64)

  datatype Baseline = Baseline(pid: nat, snapshot: Snapshot)

  type Baselines = map<Uid, Baseline>

  // ------------------------------------------------------------- one reading

  /** `snapshot_reset`. */
  predicate Reset(previous: Snapshot, current: Snapshot) {
    || current.retransSegs < previous.retransSegs
    || current.outSegs < previous.outSegs
    || current.inSegs < previous.inSegs
    || current.tcpTimeouts < previous.tcpTimeouts
    || current.tcpFastRetrans < previous.tcpFastRetrans
  }

  /** The reading continues the epoch of the baseline: same PID, no counter moved back. */
  predicate Continues(previous: Baseline, current: Baseline) {
    previous.pid == current.pid && !Reset(previous.snapshot, current.snapshot)
  }

  /** What one epoch is: the PID stays and none of the five counters goes back. */
  predicate SameEpoch(a: Baseline, b: Baseline) {
    && a.pid == b.pid
    && a.snapshot.retransSegs <= b.snapshot.retransSegs
    && a.snapshot.outSegs <= b.snapshot.outSegs
    && a.snapshot.inSegs <= b.snapshot.inSegs
    && a.snapshot.tcpTimeouts <= b.snapshot.tcpTimeouts
    && a.snapshot.tcpFastRetrans <= b.snapshot.tcpFastRetrans
  }

  /** `delta_samples`; its precondition is what rules out underflow. */
  function Delta(previous: Snapshot, current: Snapshot, m: Metric): u64
    requires !Reset(previous, current)
  {
    Count(current, m) - Count(previous, m)
  }

  function CounterSamples(uid: Uid, previous: Snapshot, current: Snapshot): seq<Sample>
    requires !Reset(previous, current)
  {
    [Counter(uid, Retransmits, Delta(previous, current, Retransmits)),
     Counter(uid, SegmentsSent, Delta(previous, current, SegmentsSent)),
     Counter(uid, SegmentsReceived, Delta(previous, current, SegmentsReceived)),
     Counter(uid, Timeouts, Delta(previous, current, Timeouts)),
     Counter(uid, FastRetransmits, Delta(previous, current, FastRetransmits))]
  }

  function SamplesFor(previous: Baselines, pod: Pod): seq<Sample> {
    match pod.snapshot
    case None => []
    case Some(snapshot) =>
      var gauge := [Gauge(pod.uid, snapshot.currEstab)];
      if pod.uid in previous && Continues(previous[pod.uid], Baseline(pod.pid, snapshot))
      then gauge + CounterSamples(pod.uid, previous[pod.uid].snapshot, snapshot)
      else gauge
  }

  function BaselinesAfter(previous: Baselines, pod: Pod): Baselines {
    if pod.snapshot.None? then previous else previous[pod.uid := Baseline(pod.pid, pod.snapshot.value)]
  }

  // -------------------------------------------------------------- one round

  datatype Outcome = Outcome(previous: Baselines, samples: seq<Sample>)

  function AfterPods(previous: Baselines, pods: seq<Pod>): Outcome {
    if pods == [] then Outcome(previous, [])
    else
      var before := AfterPods(previous, pods[..|pods| - 1]);
      var pod := pods[|pods| - 1];
      Outcome(BaselinesAfter(before.previous, pod), before.samples + SamplesFor(before.previous, pod))
  }

  predicate Lists(pods: seq<Pod>, uid: Uid) {
    exists i :: 0 <= i < |pods| && pods[i].uid == uid
  }

  function Retain(previous: Baselines, pods: seq<Pod>): Baselines {
    map uid | uid in previous && Lists(pods, uid) :: previous[uid]
  }

  function AfterRound(previous: Baselines, round: Round): Outcome {
    match round
    case DiscoveryFailed => Outcome(previous, [])
    case Discovered(pods) =>
      var all := AfterPods(previous, pods);
      Outcome(Retain(all.previous, pods), all.samples)
  }

  class Provider {
    var previous: Baselines

    constructor ()
      ensures previous == map[]
    {
      previous := map[];
    }

    /** The body of the collection loop for one pod. */
    method Observe(pod: Pod) returns (samples: seq<Sample>)
      modifies this
      ensures pod.snapshot.None? ==> samples == [] && previous == old(previous)
      ensures pod.snapshot.Some? ==>
                var now := pod.snapshot.value;
                && previous == old(previous)[pod.uid := Baseline(pod.pid, now)]
                && samples != [] && samples[0] == Gauge(pod.uid, now.currEstab)
                && if pod.uid in old(previous) && SameEpoch(old(previous)[pod.uid], Baseline(pod.pid, now)) then
                     var before := old(previous)[pod.uid].snapshot;
                     samples[1..] == [Counter(pod.uid, Retransmits, now.retransSegs - before.retransSegs),
                                      Counter(pod.uid, SegmentsSent, now.outSegs - before.outSegs),
                                      Counter(pod.uid, SegmentsReceived, now.inSegs - before.inSegs),
                                      Counter(pod.uid, Timeouts, now.tcpTimeouts - before.tcpTimeouts),
                                      Counter(pod.uid, FastRetransmits, now.tcpFastRetrans - before.tcpFastRetrans)]
                   else samples[1..] == []
      ensures previous == BaselinesAfter(old(previous), pod)
      ensures samples == SamplesFor(old(previous), pod)
    {
      if pod.snapshot.None? {
        return [];
      }
      var snapshot := pod.snapshot.value;
      samples := [Gauge(pod.uid, snapshot.currEstab)];
      var baseline := if pod.uid in previous then Some(previous[pod.uid]) else None;
      previous := previous[pod.uid := Baseline(pod.pid, snapshot)];
      if baseline.Some? && baseline.value.pid == pod.pid && !Reset(baseline.value.snapshot, snapshot) {
        samples := samples + CounterSamples(pod.uid, baseline.value.snapshot, snapshot);
      }
    }

    method Collect(round: Round) returns (r: Result<seq<Sample>, ()>)
      modifies this
      ensures previous == AfterRound(old(previous), round).previous
      ensures r == if round.DiscoveryFailed? then Err(()) else Ok(AfterRound(old(previous), round).samples)
    {
      if round.DiscoveryFailed? {
        return Err(());
      }
      var pods := round.pods;
      var samples := [];
      var seen := [];
      for i := 0 to |pods|
        invariant AfterPods(old(previous), pods[..i]) == Outcome(previous, samples)
        invariant forall uid :: uid in seen <==> Lists(pods[..i], uid)
      {
        ListsOneMore(pods, i);
        PodsOneMore(old(previous), pods, i);
        seen := seen + [pods[i].uid];
        var observed := Observe(pods[i]);
        samples := samples + observed;
      }
      assert pods[..|pods|] == pods;
      previous := map uid | uid in previous && uid in seen :: previous[uid];
      return Ok(samples);
    }
  }

  lemma PodsOneMore(previous: Baselines, pods: seq<Pod>, i: nat)
    requires i < |pods|
    ensures var before := AfterPods(previous, pods[..i]);
            AfterPods(previous, pods[..i + 1])
            == Outcome(BaselinesAfter(before.previous, pods[i]), before.samples + SamplesFor(before.previous, pods[i]))
  {
    assert pods[..i + 1][..i] == pods[..i];
  }

  lemma ListsOneMore(pods: seq<Pod>, i: nat)
    requires i < |pods|
    ensures forall uid :: Lists(pods[..i + 1], uid) <==> Lists(pods[..i], uid) || uid == pods[i].uid
  {
    forall uid
      ensures Lists(pods[..i + 1], uid) <==> Lists(pods[..i], uid) || uid == pods[i].uid
    {
      if Lists(pods[..i], uid) {
        var j :| 0 <= j < i && pods[..i][j].uid == uid;
        assert pods[..i + 1][j].uid == uid;
      }
      if uid == pods[i].uid {
        assert pods[..i + 1][i].uid == uid;
      }
      if Lists(pods[..i + 1], uid) && uid != pods[i].uid {
        var j :| 0 <= j < i + 1 && pods[..i + 1][j].uid == uid;
        assert pods[..i][j].uid == uid;
      }
    }
  }

  function Run(rounds: seq<Round>): Outcome {
    if rounds == [] then Outcome(map[], [])
    else
      var before := Run(rounds[..|rounds| - 1]);
      var last := AfterRound(before.previous, rounds[|rounds| - 1]);
      Outcome(last.previous, before.samples + last.samples)
  }

  /** The sum of one metric's deltas emitted for one pod. */
  function Emitted(samples: seq<Sample>, uid: Uid, m: Metric): nat {
    if samples == [] then 0
    else
      var s := samples[|samples| - 1];
      Emitted(samples[..|samples| - 1], uid, m) + (if s.Counter? && s.uid == uid && s.metric == m then s.delta else 0)
  }

  lemma {:induction false} EmittedConcat(a: seq<Sample>, b: seq<Sample>, uid: Uid, m: Metric)
    ensures Emitted(a + b, uid, m) == Emitted(a, uid, m) + Emitted(b, uid, m)
  {
    if b == [] {
      assert a + b == a;
    } else {
      assert (a + b)[..|a + b| - 1] == a + b[..|b| - 1];
      EmittedConcat(a, b[..|b| - 1], uid, m);
    }
  }

  lemma EmittedByPod(previous: Baselines, pod: Pod, uid: Uid, m: Metric)
    ensures Emitted(SamplesFor(previous, pod), uid, m)
         == if pod.uid == uid && pod.snapshot.Some? && uid in previous
               && Continues(previous[uid], Baseline(pod.pid, pod.snapshot.value))
            then Delta(previous[uid].snapshot, pod.snapshot.value, m) else 0
  {
    if pod.snapshot.Some? {
      var snapshot := pod.snapshot.value;
      EmittedOne(Gauge(pod.uid, snapshot.currEstab), uid, m);
      if pod.uid in previous && Continues(previous[pod.uid], Baseline(pod.pid, snapshot)) {
        EmittedConcat([Gauge(pod.uid, snapshot.currEstab)],
                      CounterSamples(pod.uid, previous[pod.uid].snapshot, snapshot), uid, m);
        EmittedByCounters(pod.uid, previous[pod.uid].snapshot, snapshot, uid, m);
      }
    }
  }

  lemma EmittedOne(s: Sample, uid: Uid, m: Metric)
    ensures Emitted([s], uid, m) == if s.Counter? && s.uid == uid && s.metric == m then s.delta else 0
  {
    assert [s][..0] == [];
  }

  lemma EmittedByCounters(owner: Uid, previous: Snapshot, current: Snapshot, uid: Uid, m: Metric)
    requires !Reset(previous, current)
    ensures Emitted(CounterSamples(owner, previous, current), uid, m) == if owner == uid then Delta(previous, current, m) else 0
  {
    var s := CounterSamples(owner, previous, current);
    assert s == [s[0]] + ([s[1]] + ([s[2]] + ([s[3]] + [s[4]])));
    EmittedConcat([s[3]], [s[4]], uid, m);
    EmittedConcat([s[2]], [s[3]] + [s[4]], uid, m);
    EmittedConcat([s[1]], [s[2]] + ([s[3]] + [s[4]]), uid, m);
    EmittedConcat([s[0]], [s[1]] + ([s[2]] + ([s[3]] + [s[4]])), uid, m);
    EmittedOne(s[0], uid, m);
    EmittedOne(s[1], uid, m);
    EmittedOne(s[2], uid, m);
    EmittedOne(s[3], uid, m);
    EmittedOne(s[4], uid, m);
  }

  // ------------------------------------------------- reference: epochs per pod

  /** What a run shows of one pod. A failed discovery shows nothing at all. */
  datatype Observation = Absent | Unreadable | Read(baseline: Baseline)

  function SightingOf(pod: Pod): Observation {
    if pod.snapshot.None? then Unreadable else Read(Baseline(pod.pid, pod.snapshot.value))
  }

  function Sightings(pods: seq<Pod>, uid: Uid): seq<Observation> {
    if pods == [] then []
    else
      var pod := pods[|pods| - 1];
      var before := Sightings(pods[..|pods| - 1], uid);
      if pod.uid == uid then before + [SightingOf(pod)] else before
  }

  function Observed(round: Round, uid: Uid): seq<Observation> {
    match round
    case DiscoveryFailed => []
    case Discovered(pods) => if Lists(pods, uid) then Sightings(pods, uid) else [Absent]
  }

  function History(rounds: seq<Round>, uid: Uid): seq<Observation> {
    if rounds == [] then [] else History(rounds[..|rounds| - 1], uid) + Observed(rounds[|rounds| - 1], uid)
  }

  type Epoch = seq<Baseline>

  /** What one more observation does to a pod's epochs, of which the last is the open one. */
  function Cut(epochs: seq<Epoch>, o: Observation): (r: seq<Epoch>)
    requires epochs != []
    ensures r != []
  {
    var n := |epochs| - 1;
    var open := epochs[n];
    match o
    case Unreadable => epochs
    case Absent => if open == [] then epochs else epochs + [[]]
    case Read(b) =>
      if open == [] || SameEpoch(open[|open| - 1], b) then epochs[n := open + [b]] else epochs + [[b]]
  }

  /**
   The readings of a pod cut into epochs; the open one may be empty. Only an absence, or a reading that
   does not continue the previous one, starts a new epoch.
   */
  function Epochs(h: seq<Observation>): (r: seq<Epoch>)
    ensures r != []
  {
    if h == [] then [[]] else Cut(Epochs(h[..|h| - 1]), h[|h| - 1])
  }

  /** From any reading of the epoch to any later one: the same PID, and no counter has decreased. */
  predicate EpochOk(e: Epoch) {
    forall i, j :: 0 <= i < j < |e| ==> SameEpoch(e[i], e[j])
  }

  lemma EpochGrows(open: Epoch, b: Baseline)
    requires EpochOk(open) && (open != [] ==> SameEpoch(open[|open| - 1], b))
    ensures EpochOk(open + [b])
  {
  }

  /** Within an epoch the PID never changes and no counter ever decreases. */
  lemma {:induction false} EpochsAreMonotone(h: seq<Observation>)
    ensures forall i :: 0 <= i < |Epochs(h)| ==> EpochOk(Epochs(h)[i])
  {
    if h != [] {
      EpochsAreMonotone(h[..|h| - 1]);
      var before := Epochs(h[..|h| - 1]);
      var open, last := before[|before| - 1], h[|h| - 1];
      if last.Read? && (open == [] || SameEpoch(open[|open| - 1], last.baseline)) {
        EpochGrows(open, last.baseline);
      }
    }
  }

  function Spread(e: Epoch, m: Metric): int {
    if e == [] then 0 else Count(e[|e| - 1].snapshot, m) - Count(e[0].snapshot, m)
  }

  /** Last minus first readable snapshot, summed over the epochs. */
  function TotalSpread(epochs: seq<Epoch>, m: Metric): int {
    if epochs == [] then 0 else TotalSpread(epochs[..|epochs| - 1], m) + Spread(epochs[|epochs| - 1], m)
  }

  function OpenBaseline(epochs: seq<Epoch>): Option<Baseline>
    requires epochs != []
  {
    var open := epochs[|epochs| - 1];
    if open == [] then None else Some(open[|open| - 1])
  }

  // ------------------------------------------------------------ the connection

  /** One pod's view of the provider: its baseline, and what was emitted for it. */
  datatype Track = Track(baseline: Option<Baseline>, emitted: int)

  function Follow(t: Track, o: Observation, m: Metric): Track {
    match o
    case Unreadable => t
    case Absent => Track(None, t.emitted)
    case Read(b) =>
      Track(Some(b),
            t.emitted + (if t.baseline.Some? && Continues(t.baseline.value, b)
                         then Delta(t.baseline.value.snapshot, b.snapshot, m) else 0))
  }

  function FollowAll(t: Track, h: seq<Observation>, m: Metric): Track {
    if h == [] then t else Follow(FollowAll(t, h[..|h| - 1], m), h[|h| - 1], m)
  }

  lemma {:induction false} FollowConcat(t: Track, a: seq<Observation>, b: seq<Observation>, m: Metric)
    ensures FollowAll(t, a + b, m) == FollowAll(FollowAll(t, a, m), b, m)
  {
    if b == [] {
      assert a + b == a;
    } else {
      assert (a + b)[..|a + b| - 1] == a + b[..|b| - 1];
      FollowConcat(t, a, b[..|b| - 1], m);
    }
  }

  function BaselineOf(previous: Baselines, uid: Uid): Option<Baseline> {
    if uid in previous then Some(previous[uid]) else None
  }

  lemma PodProjects(previous: Baselines, pod: Pod, uid: Uid, emitted: int, m: Metric)
    ensures var after := Track(BaselineOf(BaselinesAfter(previous, pod), uid),
                               emitted + Emitted(SamplesFor(previous, pod), uid, m));
            after == if pod.uid == uid then Follow(Track(BaselineOf(previous, uid), emitted), SightingOf(pod), m)
                     else Track(BaselineOf(previous, uid), emitted)
  {
    EmittedByPod(previous, pod, uid, m);
  }

  /** Looping over all pods of a round is, for each UID, following that UID's own sightings. */
  lemma {:induction false} PodsProject(previous: Baselines, pods: seq<Pod>, uid: Uid, m: Metric)
    ensures var all := AfterPods(previous, pods);
            FollowAll(Track(BaselineOf(previous, uid), 0), Sightings(pods, uid), m)
            == Track(BaselineOf(all.previous, uid), Emitted(all.samples, uid, m))
  {
    if pods != [] {
      var n := |pods| - 1;
      PodsProject(previous, pods[..n], uid, m);
      var before := AfterPods(previous, pods[..n]);
      EmittedConcat(before.samples, SamplesFor(before.previous, pods[n]), uid, m);
      PodProjects(before.previous, pods[n], uid, Emitted(before.samples, uid, m), m);
      var seen := Sightings(pods[..n], uid);
      if pods[n].uid == uid {
        assert Sightings(pods, uid)[..|seen|] == seen;
      }
    }
  }

  lemma {:induction false} UnlistedHasNoSightings(pods: seq<Pod>, uid: Uid)
    requires !Lists(pods, uid)
    ensures Sightings(pods, uid) == []
  {
    if pods != [] {
      var n := |pods| - 1;
      assert pods[n].uid != uid;
      assert forall i :: 0 <= i < n ==> pods[..n][i].uid == pods[i].uid;
      UnlistedHasNoSightings(pods[..n], uid);
    }
  }

  lemma FollowShift(baseline: Option<Baseline>, emitted: int, h: seq<Observation>, m: Metric)
    ensures FollowAll(Track(baseline, emitted), h, m).baseline == FollowAll(Track(baseline, 0), h, m).baseline
    ensures FollowAll(Track(baseline, emitted), h, m).emitted == emitted + FollowAll(Track(baseline, 0), h, m).emitted
  {
    if h != [] {
      FollowShift(baseline, emitted, h[..|h| - 1], m);
    }
  }

  lemma RoundProjects(previous: Baselines, round: Round, uid: Uid, m: Metric)
    ensures var all := AfterRound(previous, round);
            FollowAll(Track(BaselineOf(previous, uid), 0), Observed(round, uid), m)
            == Track(BaselineOf(all.previous, uid), Emitted(all.samples, uid, m))
  {
    if round.Discovered? {
      PodsProject(previous, round.pods, uid, m);
      if !Lists(round.pods, uid) {
        UnlistedHasNoSightings(round.pods, uid);
        assert [Absent][..0] == [];
        assert FollowAll(Track(BaselineOf(previous, uid), 0), [], m).emitted == 0;
      }
    }
  }

  /** The provider's whole run, seen from one pod, is following that pod's history. */
  lemma {:induction false} RunProjects(rounds: seq<Round>, uid: Uid, m: Metric)
    ensures FollowAll(Track(None, 0), History(rounds, uid), m)
         == Track(BaselineOf(Run(rounds).previous, uid), Emitted(Run(rounds).samples, uid, m))
  {
    if rounds != [] {
      var n := |rounds| - 1;
      RunProjects(rounds[..n], uid, m);
      var before := Run(rounds[..n]);
      RoundProjects(before.previous, rounds[n], uid, m);
      EmittedConcat(before.samples, AfterRound(before.previous, rounds[n]).samples, uid, m);
      FollowConcat(Track(None, 0), History(rounds[..n], uid), Observed(rounds[n], uid), m);
      FollowShift(BaselineOf(before.previous, uid), Emitted(before.samples, uid, m), Observed(rounds[n], uid), m);
    }
  }

  lemma ReplaceLastEpoch(epochs: seq<Epoch>, e: Epoch, m: Metric)
    requires epochs != []
    ensures var n := |epochs| - 1;
            TotalSpread(epochs[n := e], m) == TotalSpread(epochs, m) - Spread(epochs[n], m) + Spread(e, m)
  {
    var n := |epochs| - 1;
    assert epochs[n := e][..n] == epochs[..n];
  }

  lemma AddEpoch(epochs: seq<Epoch>, e: Epoch, m: Metric)
    ensures TotalSpread(epochs + [e], m) == TotalSpread(epochs, m) + Spread(e, m)
  {
    assert (epochs + [e])[..|epochs|] == epochs;
  }

  lemma CutFollows(epochs: seq<Epoch>, o: Observation, m: Metric)
    requires epochs != []
    ensures Follow(Track(OpenBaseline(epochs), TotalSpread(epochs, m)), o, m)
         == Track(OpenBaseline(Cut(epochs, o)), TotalSpread(Cut(epochs, o), m))
  {
    var open := epochs[|epochs| - 1];
    match o
    case Unreadable =>
    case Absent => AddEpoch(epochs, [], m);
    case Read(b) =>
      ReplaceLastEpoch(epochs, open + [b], m);
      AddEpoch(epochs, [b], m);
  }

  /** Following a history accumulates exactly the spreads of its epochs. */
  lemma {:induction false} FollowingIsSpreading(h: seq<Observation>, m: Metric)
    ensures FollowAll(Track(None, 0), h, m) == Track(OpenBaseline(Epochs(h)), TotalSpread(Epochs(h), m))
  {
    if h == [] {
      var start: seq<Epoch> := [[]];
      assert Epochs(h) == start && start[..0] == [];
    } else {
      FollowingIsSpreading(h[..|h| - 1], m);
      CutFollows(Epochs(h[..|h| - 1]), h[|h| - 1], m);
    }
  }

  // ------------------------------------------------------------ main results

  /** Last minus first reading of one snapshot field, summed over the epochs. */
  function FieldSpread(epochs: seq<Epoch>, field: Snapshot -> u64): int {
    if epochs == [] then 0
    else
      var e := epochs[|epochs| - 1];
      FieldSpread(epochs[..|epochs| - 1], field)
      + (if e == [] then 0 else field(e[|e| - 1].snapshot) - field(e[0].snapshot))
  }

  lemma {:induction false} SpreadOfField(epochs: seq<Epoch>, m: Metric, field: Snapshot -> u64)
    requires forall s :: field(s) == Count(s, m)
    ensures TotalSpread(epochs, m) == FieldSpread(epochs, field)
  {
    if epochs != [] {
      SpreadOfField(epochs[..|epochs| - 1], m, field);
    }
  }

  /** The snapshot field a metric stands for: `f` reads that field and no other. */
  ghost predicate Reads(m: Metric, f: Snapshot -> u64) {
    match m
    case Retransmits => forall s: Snapshot :: f(s) == s.retransSegs
    case SegmentsSent => forall s: Snapshot :: f(s) == s.outSegs
    case SegmentsReceived => forall s: Snapshot :: f(s) == s.inSegs
    case Timeouts => forall s: Snapshot :: f(s) == s.tcpTimeouts
    case FastRetransmits => forall s: Snapshot :: f(s) == s.tcpFastRetrans
  }

  lemma ReadsCount(m: Metric, f: Snapshot -> u64)
    requires Reads(m, f)
    ensures forall s :: f(s) == Count(s, m)
  {
  }

  /**
   For every run and pod, and each of the five counters: the emitted deltas add up to last-minus-first readable
   value of the counter's own field, summed over the pod's epochs; and the baseline is the last reading of the
   open epoch.
   */
  lemma EmittedIsEpochSpread(rounds: seq<Round>, uid: Uid, m: Metric, field: Snapshot -> u64)
    requires Reads(m, field)
    ensures Emitted(Run(rounds).samples, uid, m) == FieldSpread(Epochs(History(rounds, uid)), field)
    ensures BaselineOf(Run(rounds).previous, uid) == OpenBaseline(Epochs(History(rounds, uid)))
  {
    ReadsCount(m, field);
    RunProjects(rounds, uid, m);
    FollowingIsSpreading(History(rounds, uid), m);
    SpreadOfField(Epochs(History(rounds, uid)), m, field);
  }

  // ------------------------------------------------------------------- gauges

  /** The gauges among the samples, in order. */
  function Gauges(samples: seq<Sample>): seq<Sample> {
    if samples == [] then []
    else
      var last := samples[|samples| - 1];
      Gauges(samples[..|samples| - 1]) + (if last.Gauge? then [last] else [])
  }

  lemma {:induction false} GaugesConcat(a: seq<Sample>, b: seq<Sample>)
    ensures Gauges(a + b) == Gauges(a) + Gauges(b)
  {
    if b == [] {
      assert a + b == a;
    } else {
      var last := b[|b| - 1];
      assert (a + b)[..|a + b| - 1] == a + b[..|b| - 1];
      GaugesConcat(a, b[..|b| - 1]);
      Regroup(Gauges(a), Gauges(b[..|b| - 1]), if last.Gauge? then [last] else []);
    }
  }

  /** What the readable pods of a run show: one number of established connections each. */
  function ReadableIn(pods: seq<Pod>): seq<Sample> {
    if pods == [] then []
    else
      var pod := pods[|pods| - 1];
      ReadableIn(pods[..|pods| - 1])
      + (if pod.snapshot.Some? then [Gauge(pod.uid, pod.snapshot.value.currEstab)] else [])
  }

  function Readable(rounds: seq<Round>): seq<Sample> {
    if rounds == [] then []
    else
      var round := rounds[|rounds| - 1];
      Readable(rounds[..|rounds| - 1]) + (if round.Discovered? then ReadableIn(round.pods) else [])
  }

  lemma GaugesOfPod(previous: Baselines, pod: Pod)
    ensures Gauges(SamplesFor(previous, pod))
         == if pod.snapshot.Some? then [Gauge(pod.uid, pod.snapshot.value.currEstab)] else []
  {
    if pod.snapshot.Some? {
      var snapshot := pod.snapshot.value;
      var gauge := [Gauge(pod.uid, snapshot.currEstab)];
      assert gauge[..0] == [] && Gauges(gauge) == gauge;
      if pod.uid in previous && Continues(previous[pod.uid], Baseline(pod.pid, snapshot)) {
        var counters := CounterSamples(pod.uid, previous[pod.uid].snapshot, snapshot);
        GaugesConcat(gauge, counters);
        NoGauges(counters);
      }
    }
  }

  lemma {:induction false} NoGauges(samples: seq<Sample>)
    requires forall i :: 0 <= i < |samples| ==> samples[i].Counter?
    ensures Gauges(samples) == []
  {
    if samples != [] {
      NoGauges(samples[..|samples| - 1]);
    }
  }

  lemma {:induction false} GaugesOfPods(previous: Baselines, pods: seq<Pod>)
    ensures Gauges(AfterPods(previous, pods).samples) == ReadableIn(pods)
  {
    if pods != [] {
      var n := |pods| - 1;
      var before := AfterPods(previous, pods[..n]);
      GaugesOfPods(previous, pods[..n]);
      GaugesConcat(before.samples, SamplesFor(before.previous, pods[n]));
      GaugesOfPod(before.previous, pods[n]);
    }
  }

  /** Every readable pod of every round yields exactly one gauge, its established connections, in order. */
  lemma {:induction false} GaugesAreReadings(rounds: seq<Round>)
    ensures Gauges(Run(rounds).samples) == Readable(rounds)
  {
    if rounds != [] {
      var n := |rounds| - 1;
      var before, round := Run(rounds[..n]), rounds[n];
      GaugesAreReadings(rounds[..n]);
      GaugesConcat(before.samples, AfterRound(before.previous, round).samples);
      if round.Discovered? {
        GaugesOfPods(before.previous, round.pods);
      }
    }
  }

  /** A round that shows nothing new of the pod: discovery failed, or the pod was listed but unreadable. */
  predicate Silent(round: Round, uid: Uid) {
    || round.DiscoveryFailed?
    || (Lists(round.pods, uid) && forall i :: 0 <= i < |round.pods| && round.pods[i].uid == uid ==> round.pods[i].snapshot.None?)
  }

  lemma {:induction false} UnreadableSightings(pods: seq<Pod>, uid: Uid)
    requires forall i :: 0 <= i < |pods| && pods[i].uid == uid ==> pods[i].snapshot.None?
    ensures forall i :: 0 <= i < |Sightings(pods, uid)| ==> Sightings(pods, uid)[i] == Unreadable
  {
    if pods != [] {
      UnreadableSightings(pods[..|pods| - 1], uid);
    }
  }

  lemma {:induction false} UnreadableChangesNothing(t: Track, h: seq<Observation>, m: Metric)
    requires forall i :: 0 <= i < |h| ==> h[i] == Unreadable
    ensures FollowAll(t, h, m) == t
  {
    if h != [] {
      UnreadableChangesNothing(t, h[..|h| - 1], m);
    }
  }

  lemma {:induction false} HistoryConcat(a: seq<Round>, b: seq<Round>, uid: Uid)
    ensures History(a + b, uid) == History(a, uid) + History(b, uid)
  {
    if b == [] {
      assert a + b == a;
    } else {
      var shorter, last := b[..|b| - 1], b[|b| - 1];
      assert (a + b)[..|a + b| - 1] == a + shorter;
      HistoryConcat(a, shorter, uid);
      assert (a + b)[|a + b| - 1] == last;
      Regroup(History(a, uid), History(shorter, uid), Observed(last, uid));
    }
  }

  /** Failed discoveries and unreadable rounds lose nothing, wherever in the run they fall. */
  lemma SilentRoundsLoseNothing(early: seq<Round>, silent: Round, late: seq<Round>, uid: Uid, m: Metric)
    requires Silent(silent, uid)
    ensures Emitted(Run(early + [silent] + late).samples, uid, m) == Emitted(Run(early + late).samples, uid, m)
    ensures BaselineOf(Run(early + [silent] + late).previous, uid) == BaselineOf(Run(early + late).previous, uid)
  {
    var quiet := Observed(silent, uid);
    if silent.Discovered? {
      UnreadableSightings(silent.pods, uid);
    }
    HistoryConcat(early, late, uid);
    HistoryConcat(early + [silent], late, uid);
    HistoryConcat(early, [silent], uid);
    assert History([silent], uid) == quiet by {
      assert [silent][..0] == [];
    }
    var start := Track(None, 0);
    var mid := FollowAll(start, History(early, uid), m);
    UnreadableChangesNothing(mid, quiet, m);
    FollowConcat(start, History(early, uid), quiet, m);
    FollowConcat(start, History(early, uid) + quiet, History(late, uid), m);
    FollowConcat(start, History(early, uid), History(late, uid), m);
    RunProjects(early + [silent] + late, uid, m);
    RunProjects(early + late, uid, m);
  }
}
