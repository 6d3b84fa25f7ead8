/**
 Network byte accounting, from packet events on any CPU to emitted samples.

 One run of the BPF program, and one read of a map key, is one atomic step.
 */
module NetworkLedger {
  import opened Common
  import opened PerCpu

  datatype Direction = Ingress | Egress

  /** One map value: a column per field, a word per CPU. */
  datatype Counters = Counters(bytes: seq<u64>, packets: seq<u64>)

  type CounterMap = map<Direction, Counters>

  function NoCounters(cpus: nat): Counters {
    Counters(Zeros(cpus), Zeros(cpus))
  }

  /** The map value as a reader sees it; a missing key counts as zero. */
  function CountersOf(m: CounterMap, cpus: nat, d: Direction): Counters {
    if d in m then m[d] else NoCounters(cpus)
  }

  ghost predicate Shaped(m: CounterMap, cpus: nat) {
    forall d :: d in m ==> |m[d].bytes| == cpus && |m[d].packets| == cpus
  }

  /** A packet at one of the two tracepoints. `canCreate` is false if a missing map entry cannot be made. */
  datatype Packet = Packet(cpu: nat, len: u64, direction: Direction, rc: int, canCreate: bool)

  /** Whether the program counts this packet. */
  predicate Counted(m: CounterMap, p: Packet) {
    && !(p.direction.Egress? && p.rc != 0)
    && p.len != 0
    && (p.direction in m || p.canCreate)
  }

  function AfterPacket(m: CounterMap, cpus: nat, p: Packet): CounterMap
    requires Shaped(m, cpus) && p.cpu < cpus
  {
    if !Counted(m, p) then m
    else
      var c := CountersOf(m, cpus, p.direction);
      m[p.direction := Counters(Bump(c.bytes, p.cpu, p.len), Bump(c.packets, p.cpu, 1))]
  }

  /** The loaded BPF object: its per-CPU hash map, edited in place. */
  class Program {
    const cpus: nat
    var counters: CounterMap

    constructor (cpus: nat)
      ensures this.cpus == cpus && counters == map[] && Shaped(counters, cpus)
    {
      this.cpus := cpus;
      counters := map[];
    }

    method AccountNetworkBytes(cpu: nat, len: u64, direction: Direction, canCreate: bool)
      requires Shaped(counters, cpus) && cpu < cpus
      modifies this
      ensures Shaped(counters, cpus)
      ensures counters == AfterPacket(old(counters), cpus, Packet(cpu, len, direction, 0, canCreate))
    {
      if len == 0 {
        return;
      }
      if direction !in counters {
        if !canCreate {
          return;
        }
        counters := counters[direction := NoCounters(cpus)];
      }
      var c := counters[direction];
      c := c.(bytes := Bump(c.bytes, cpu, len));
      c := c.(packets := Bump(c.packets, cpu, 1));
      counters := counters[direction := c];
    }

    /** `talia_netif_receive_skb`. */
    method NetifReceiveSkb(cpu: nat, len: u64, canCreate: bool)
      requires Shaped(counters, cpus) && cpu < cpus
      modifies this
      ensures Shaped(counters, cpus)
      ensures counters == AfterPacket(old(counters), cpus, Packet(cpu, len, Ingress, 0, canCreate))
    {
      AccountNetworkBytes(cpu, len, Ingress, canCreate);
    }

    /** `talia_net_dev_xmit`: a failed transmission is not counted. */
    method NetDevXmit(cpu: nat, len: u64, rc: int, canCreate: bool)
      requires Shaped(counters, cpus) && cpu < cpus
      modifies this
      ensures Shaped(counters, cpus)
      ensures counters == AfterPacket(old(counters), cpus, Packet(cpu, len, Egress, rc, canCreate))
    {
      if rc != 0 {
        return;
      }
      AccountNetworkBytes(cpu, len, Egress, canCreate);
    }
  }

  // --------------------------------------------------------------- collector

  datatype Reading = Reading(bytes: u64, packets: u64)

  datatype Sample = Sample(direction: Direction, bytes: u64, packets: u64)

  type Previous = map<Direction, Reading>

  function SumCounters(c: Counters): Reading {
    Reading(SatSum(c.bytes), SatSum(c.packets))
  }

  function PreviousOf(previous: Previous, d: Direction): Reading {
    if d in previous then previous[d] else Reading(0, 0)
  }

  function Delta(previous: Previous, d: Direction, current: Reading): Sample {
    var before := PreviousOf(previous, d);
    Sample(d, SatSub(current.bytes, before.bytes), SatSub(current.packets, before.packets))
  }

  /** What iterating the map can yield: a failed key or value, a foreign key, or a value. */
  datatype MapRead = Failed | ForeignKey | Value(direction: Direction, counters: Counters)

  datatype Collected = Collected(previous: Previous, samples: seq<Sample>, failed: bool)

  function CollectAll(previous: Previous, items: seq<MapRead>): Collected {
    if items == [] then Collected(previous, [], false)
    else
      var before := CollectAll(previous, items[..|items| - 1]);
      if before.failed then before
      else
        match items[|items| - 1]
        case Failed => before.(failed := true)
        case ForeignKey => before
        case Value(d, counters) =>
          var current := SumCounters(counters);
          Collected(before.previous[d := current], before.samples + [Delta(before.previous, d, current)], false)
  }

  class Collector {
    var previous: Previous

    constructor ()
      ensures previous == map[]
    {
      previous := map[];
    }

    /** `collect`: a failed read returns early, keeping the readings that were already replaced. */
    method Collect(items: seq<MapRead>) returns (r: Result<seq<Sample>, ()>)
      modifies this
      ensures var all := CollectAll(old(previous), items);
              previous == all.previous && r == if all.failed then Err(()) else Ok(all.samples)
    {
      var samples := [];
      for i := 0 to |items|
        invariant CollectAll(old(previous), items[..i]) == Collected(previous, samples, false)
      {
        assert items[..i + 1][..i] == items[..i];
        match items[i]
        case Failed =>
          FailureSticks(old(previous), items, i + 1);
          return Err(());
        case ForeignKey =>
        case Value(d, counters) =>
          var current := SumCounters(counters);
          var before := if d in previous then previous[d] else Reading(0, 0);
          previous := previous[d := current];
          samples := samples + [Sample(d, SatSub(current.bytes, before.bytes), SatSub(current.packets, before.packets))];
      }
      assert items[..|items|] == items;
      return Ok(samples);
    }
  }

  lemma {:induction false} FailureSticks(previous: Previous, items: seq<MapRead>, n: nat)
    requires n <= |items| && CollectAll(previous, items[..n]).failed
    ensures CollectAll(previous, items) == CollectAll(previous, items[..n])
    decreases |items|
  {
    if n < |items| {
      var shorter := items[..|items| - 1];
      assert shorter[..n] == items[..n];
      FailureSticks(previous, shorter, n);
    } else {
      assert items[..n] == items;
    }
  }

  // -------------------------------------------------------- kernel and reader

  /** Audit per direction: exact, unwrapped columns. */
  datatype Audit = Audit(bytes: seq<int>, packets: seq<int>)

  /** `pending` holds the samples of a collection under way; a failed collection drops them. */
  datatype World = World(
    cpus: nat,
    counters: CounterMap,
    previous: Previous,
    pending: seq<Sample>,
    emitted: seq<Sample>,
    dropped: seq<Sample>,
    audit: map<Direction, Audit>)

  datatype Event =
    | PacketSeen(packet: Packet)
    | KeyRead(direction: Direction)
    | CollectionEnded(failed: bool)

  function Start(cpus: nat): World {
    var none := Audit(Zeros(cpus), Zeros(cpus));
    World(cpus, map[], map[], [], [], [], map[Ingress := none, Egress := none])
  }

  ghost predicate Enabled(w: World, e: Event) {
    match e
    case PacketSeen(p) => Shaped(w.counters, w.cpus) && p.cpu < w.cpus && p.direction in w.audit
                          && |w.audit[p.direction].bytes| == |w.audit[p.direction].packets| == w.cpus
    case KeyRead(d) => d in w.counters
    case CollectionEnded(_) => true
  }

  function AuditPacket(a: Audit, p: Packet): Audit
    requires p.cpu < |a.bytes| && p.cpu < |a.packets|
  {
    Audit(BumpExact(a.bytes, p.cpu, p.len), BumpExact(a.packets, p.cpu, 1))
  }

  ghost function Step(w: World, e: Event): World {
    if !Enabled(w, e) then w
    else
      match e
      case PacketSeen(p) =>
        if !Counted(w.counters, p) then w
        else w.(counters := AfterPacket(w.counters, w.cpus, p),
                audit := w.audit[p.direction := AuditPacket(w.audit[p.direction], p)])
      case KeyRead(d) =>
        var current := SumCounters(w.counters[d]);
        w.(previous := w.previous[d := current], pending := w.pending + [Delta(w.previous, d, current)])
      case CollectionEnded(failed) =>
        if failed then w.(pending := [], dropped := w.dropped + w.pending)
        else w.(pending := [], emitted := w.emitted + w.pending)
  }

  ghost function Run(w: World, events: seq<Event>): World
    decreases |events|
  {
    if events == [] then w else Run(Step(w, events[0]), events[1..])
  }

  lemma CollectOneMore(w: World, keys: seq<Direction>, d: Direction)
    requires d in w.counters && forall i :: 0 <= i < |keys| ==> keys[i] in w.counters
    requires !CollectAll(w.previous, ValuesOf(w, keys)).failed
    ensures var before, current := CollectAll(w.previous, ValuesOf(w, keys)), SumCounters(w.counters[d]);
            CollectAll(w.previous, ValuesOf(w, keys + [d]))
            == Collected(before.previous[d := current],
                         before.samples + [Delta(before.previous, d, current)], false)
  {
    assert ValuesOf(w, keys + [d])[..|keys|] == ValuesOf(w, keys);
  }

  lemma ReadOneMore(w: World, before: Collected, d: Direction)
    requires d in w.counters
    ensures var current := SumCounters(w.counters[d]);
            Step(w.(previous := before.previous, pending := w.pending + before.samples), KeyRead(d))
            == w.(previous := before.previous[d := current],
                  pending := w.pending + (before.samples + [Delta(before.previous, d, current)]))
  {
  }

  /** One uninterrupted pass of `collect` is one key read per item, in order. */
  lemma {:induction false} CollectIsKeyReads(w: World, keys: seq<Direction>)
    requires forall i :: 0 <= i < |keys| ==> keys[i] in w.counters
    ensures var all := CollectAll(w.previous, ValuesOf(w, keys));
            !all.failed && Run(w, ReadsOf(keys)) == w.(previous := all.previous, pending := w.pending + all.samples)
  {
    if keys == [] {
      assert w.pending + [] == w.pending;
    } else {
      var last := |keys| - 1;
      var d, shorter := keys[last], keys[..last];
      assert keys == shorter + [d];
      CollectIsKeyReads(w, shorter);
      CollectOneMore(w, shorter, d);
      ReadOneMore(w, CollectAll(w.previous, ValuesOf(w, shorter)), d);
      assert ReadsOf(keys) == ReadsOf(shorter) + [KeyRead(d)];
      RunAppend(w, ReadsOf(shorter), KeyRead(d));
    }
  }

  lemma FailureEndsPass(previous: Previous, values: seq<MapRead>, unread: seq<MapRead>)
    requires !CollectAll(previous, values).failed
    ensures CollectAll(previous, values + [Failed] + unread) == CollectAll(previous, values).(failed := true)
  {
    assert (values + [Failed])[..|values|] == values;
    assert (values + [Failed] + unread)[..|values| + 1] == values + [Failed];
    FailureSticks(previous, values + [Failed] + unread, |values| + 1);
  }

  /** A read that fails ends the pass there: the readings before it stay replaced and their samples are dropped. */
  lemma FailedCollectIsKeyReads(w: World, keys: seq<Direction>, unread: seq<MapRead>)
    requires forall i :: 0 <= i < |keys| ==> keys[i] in w.counters
    ensures var all := CollectAll(w.previous, ValuesOf(w, keys));
            && CollectAll(w.previous, ValuesOf(w, keys) + [Failed] + unread) == all.(failed := true)
            && Run(w, ReadsOf(keys) + [CollectionEnded(true)])
               == w.(previous := all.previous, pending := [], dropped := w.dropped + (w.pending + all.samples))
  {
    CollectIsKeyReads(w, keys);
    FailureEndsPass(w.previous, ValuesOf(w, keys), unread);
    RunAppend(w, ReadsOf(keys), CollectionEnded(true));
  }

  /** Keys of other directions are passed over. */
  lemma {:induction false} ForeignKeysAreSkipped(previous: Previous, early: seq<MapRead>, late: seq<MapRead>)
    ensures CollectAll(previous, early + [ForeignKey] + late) == CollectAll(previous, early + late)
  {
    if late == [] {
      assert early + [] == early && early + [ForeignKey] + [] == early + [ForeignKey];
      assert (early + [ForeignKey])[..|early|] == early;
    } else {
      var n := |late| - 1;
      ForeignKeysAreSkipped(previous, early, late[..n]);
      assert (early + [ForeignKey] + late)[..|early| + 1 + n] == early + [ForeignKey] + late[..n];
      assert (early + late)[..|early| + n] == early + late[..n];
    }
  }

  ghost function ReadsOf(keys: seq<Direction>): seq<Event> {
    seq(|keys|, i requires 0 <= i < |keys| => KeyRead(keys[i]))
  }

  ghost function ValuesOf(w: World, keys: seq<Direction>): seq<MapRead>
    requires forall i :: 0 <= i < |keys| ==> keys[i] in w.counters
  {
    seq(|keys|, i requires 0 <= i < |keys| => Value(keys[i], w.counters[keys[i]]))
  }

  lemma {:induction false} RunAppend(w: World, events: seq<Event>, e: Event)
    ensures Run(w, events + [e]) == Step(Run(w, events), e)
    decreases |events|
  {
    if events == [] {
      assert [] + [e] == [e] && [e][1..] == [];
      assert Run(Step(w, e), []) == Step(w, e);
    } else {
      assert (events + [e])[1..] == events[1..] + [e];
      RunAppend(Step(w, events[0]), events[1..], e);
    }
  }

  function TotalBytes(samples: seq<Sample>, d: Direction): nat {
    if samples == [] then 0
    else TotalBytes(samples[..|samples| - 1], d)
         + (if samples[|samples| - 1].direction == d then samples[|samples| - 1].bytes else 0)
  }

  function TotalPackets(samples: seq<Sample>, d: Direction): nat {
    if samples == [] then 0
    else TotalPackets(samples[..|samples| - 1], d)
         + (if samples[|samples| - 1].direction == d then samples[|samples| - 1].packets else 0)
  }

  lemma {:induction false} TotalsConcat(a: seq<Sample>, b: seq<Sample>, d: Direction)
    ensures TotalBytes(a + b, d) == TotalBytes(a, d) + TotalBytes(b, d)
    ensures TotalPackets(a + b, d) == TotalPackets(a, d) + TotalPackets(b, d)
  {
    if b == [] {
      assert a + b == a;
    } else {
      assert (a + b)[..|a + b| - 1] == a + b[..|b| - 1];
      TotalsConcat(a, b[..|b| - 1], d);
    }
  }

  /** Everything ever reported for a direction: emitted, dropped by a failed collection, or pending. */
  function ReportedBytes(w: World, d: Direction): nat {
    TotalBytes(w.emitted, d) + TotalBytes(w.dropped, d) + TotalBytes(w.pending, d)
  }

  function ReportedPackets(w: World, d: Direction): nat {
    TotalPackets(w.emitted, d) + TotalPackets(w.dropped, d) + TotalPackets(w.pending, d)
  }

  ghost predicate DirectionOk(w: World, d: Direction) {
    && d in w.audit
    && var c, a, p := CountersOf(w.counters, w.cpus, d), w.audit[d], PreviousOf(w.previous, d);
       && |a.bytes| == |a.packets| == w.cpus
       && Telescoped(c.bytes, a.bytes, p.bytes, ReportedBytes(w, d))
       && Telescoped(c.packets, a.packets, p.packets, ReportedPackets(w, d))
  }

  ghost predicate Inv(w: World) {
    Shaped(w.counters, w.cpus) && DirectionOk(w, Ingress) && DirectionOk(w, Egress)
  }

  lemma StartOk(cpus: nat)
    ensures Inv(Start(cpus))
  {
    StartTelescoped(Zeros(cpus), Zeros(cpus));
  }

  lemma PacketMoves(w: World, p: Packet, d: Direction)
    requires Inv(w) && Enabled(w, PacketSeen(p))
    ensures var t := Step(w, PacketSeen(p));
            && t == w.(counters := t.counters, audit := t.audit) && d in t.audit
            && var c, after := CountersOf(w.counters, w.cpus, d), CountersOf(t.counters, w.cpus, d);
               if Counted(w.counters, p) && d == p.direction
               then after == Counters(Bump(c.bytes, p.cpu, p.len), Bump(c.packets, p.cpu, 1))
                    && t.audit[d] == AuditPacket(w.audit[d], p)
               else after == c && t.audit[d] == w.audit[d]
  {
    assert DirectionOk(w, d);
  }

  lemma PacketKeeps(w: World, p: Packet, d: Direction)
    requires Inv(w) && Enabled(w, PacketSeen(p))
    ensures DirectionOk(Step(w, PacketSeen(p)), d)
  {
    assert DirectionOk(w, d);
    PacketMoves(w, p, d);
    if Counted(w.counters, p) && d == p.direction {
      var c, a, v := CountersOf(w.counters, w.cpus, d), w.audit[d], PreviousOf(w.previous, d);
      BumpKeeps(c.bytes, a.bytes, v.bytes, ReportedBytes(w, d), p.cpu, p.len);
      BumpKeeps(c.packets, a.packets, v.packets, ReportedPackets(w, d), p.cpu, 1);
    }
  }

  lemma ReadMoves(w: World, read: Direction, d: Direction)
    requires read in w.counters
    ensures var t, current := Step(w, KeyRead(read)), SumCounters(w.counters[read]);
            var before := PreviousOf(w.previous, d);
            && t == w.(previous := t.previous, pending := t.pending)
            && PreviousOf(t.previous, d) == (if d == read then current else before)
            && ReportedBytes(t, d) == ReportedBytes(w, d) + (if d == read then SatSub(current.bytes, before.bytes) else 0)
            && ReportedPackets(t, d)
               == ReportedPackets(w, d) + (if d == read then SatSub(current.packets, before.packets) else 0)
  {
    var sample := Delta(w.previous, read, SumCounters(w.counters[read]));
    assert (w.pending + [sample])[..|w.pending|] == w.pending;
  }

  lemma ReadKeepsDirection(w: World, read: Direction, d: Direction)
    requires Inv(w) && read in w.counters
    ensures DirectionOk(Step(w, KeyRead(read)), d)
  {
    assert DirectionOk(w, d);
    ReadMoves(w, read, d);
    if d == read {
      var c, a, v := w.counters[d], w.audit[d], PreviousOf(w.previous, d);
      ReadKeeps(c.bytes, a.bytes, v.bytes, ReportedBytes(w, d));
      ReadKeeps(c.packets, a.packets, v.packets, ReportedPackets(w, d));
    }
  }

  lemma EndReports(w: World, failed: bool, d: Direction)
    ensures ReportedBytes(Step(w, CollectionEnded(failed)), d) == ReportedBytes(w, d)
    ensures ReportedPackets(Step(w, CollectionEnded(failed)), d) == ReportedPackets(w, d)
  {
    TotalsConcat(w.emitted, w.pending, d);
    TotalsConcat(w.dropped, w.pending, d);
  }

  lemma EndKeeps(w: World, failed: bool, d: Direction)
    requires Inv(w)
    ensures DirectionOk(Step(w, CollectionEnded(failed)), d)
  {
    assert DirectionOk(w, d);
    EndReports(w, failed, d);
  }

  lemma StepKeepsDirection(w: World, e: Event, d: Direction)
    requires Inv(w) && Enabled(w, e)
    ensures DirectionOk(Step(w, e), d)
  {
    match e
    case PacketSeen(p) => PacketKeeps(w, p, d);
    case KeyRead(read) => ReadKeepsDirection(w, read, d);
    case CollectionEnded(failed) => EndKeeps(w, failed, d);
  }

  lemma StepKeeps(w: World, e: Event)
    requires Inv(w)
    ensures Inv(Step(w, e))
  {
    if Enabled(w, e) {
      StepKeepsDirection(w, e, Ingress);
      StepKeepsDirection(w, e, Egress);
      assert Shaped(Step(w, e).counters, w.cpus);
    }
  }

  lemma {:induction false} RunKeeps(w: World, events: seq<Event>)
    requires Inv(w)
    ensures Inv(Run(w, events))
    decreases |events|
  {
    if events != [] {
      StepKeeps(w, events[0]);
      RunKeeps(Step(w, events[0]), events[1..]);
    }
  }

  /** What the kernel holds beyond the last reading. */
  function ResidueBytes(w: World, d: Direction): int {
    SatSum(CountersOf(w.counters, w.cpus, d).bytes) - PreviousOf(w.previous, d).bytes
  }

  function ResiduePackets(w: World, d: Direction): int {
    SatSum(CountersOf(w.counters, w.cpus, d).packets) - PreviousOf(w.previous, d).packets
  }

  /** What the packet events alone say of one direction: the directions counted so far, and this one's totals. */
  datatype Tally = Tally(known: set<Direction>, bytes: nat, packets: nat)

  /**
   A packet counts unless it is empty, or its transmission failed, or its direction is new and no entry can be made
   for it.
   */
  function TallyStep(t: Tally, cpus: nat, d: Direction, e: Event): Tally {
    match e
    case PacketSeen(p) =>
      if p.cpu >= cpus || p.len == 0 then t
      else if p.direction == Egress && p.rc != 0 then t
      else if p.direction !in t.known && !p.canCreate then t
      else if p.direction != d then t.(known := t.known + {p.direction})
      else Tally(t.known + {d}, t.bytes + p.len, t.packets + 1)
    case KeyRead(_) => t
    case CollectionEnded(_) => t
  }

  function TallyOf(t: Tally, cpus: nat, d: Direction, events: seq<Event>): Tally
    decreases |events|
  {
    if events == [] then t else TallyOf(TallyStep(t, cpus, d, events[0]), cpus, d, events[1..])
  }

  predicate Tallied(w: World, d: Direction, t: Tally) {
    && w.counters.Keys == t.known && d in w.audit
    && Sum(w.audit[d].bytes) == t.bytes && Sum(w.audit[d].packets) == t.packets
  }

  lemma PacketMakesKnown(m: CounterMap, cpus: nat, p: Packet)
    requires Shaped(m, cpus) && p.cpu < cpus
    ensures AfterPacket(m, cpus, p).Keys == m.Keys + (if Counted(m, p) then {p.direction} else {})
  {
  }

  lemma PacketIsTallied(w: World, d: Direction, t: Tally, p: Packet)
    requires Inv(w) && Tallied(w, d, t) && Enabled(w, PacketSeen(p))
    ensures Tallied(Step(w, PacketSeen(p)), d, TallyStep(t, w.cpus, d, PacketSeen(p)))
  {
    PacketMoves(w, p, d);
    PacketMakesKnown(w.counters, w.cpus, p);
    if Counted(w.counters, p) && p.direction == d {
      assert Sum(AuditPacket(w.audit[d], p).bytes) == t.bytes + p.len;
    }
  }

  lemma EveryPacketIsSeen(w: World, p: Packet)
    requires Inv(w)
    ensures Enabled(w, PacketSeen(p)) <==> p.cpu < w.cpus
  {
    assert DirectionOk(w, Ingress) && DirectionOk(w, Egress);
    assert p.direction == Ingress || p.direction == Egress;
  }

  lemma StepIsTallied(w: World, d: Direction, t: Tally, e: Event)
    requires Inv(w) && Tallied(w, d, t)
    ensures Tallied(Step(w, e), d, TallyStep(t, w.cpus, d, e)) && Step(w, e).cpus == w.cpus
  {
    if e.PacketSeen? {
      EveryPacketIsSeen(w, e.packet);
      if Enabled(w, e) {
        PacketIsTallied(w, d, t, e.packet);
      }
    }
  }

  lemma {:induction false} RunIsTallied(w: World, d: Direction, t: Tally, events: seq<Event>)
    requires Inv(w) && Tallied(w, d, t)
    ensures Inv(Run(w, events)) && Tallied(Run(w, events), d, TallyOf(t, w.cpus, d, events)) && Run(w, events).cpus == w.cpus
    decreases |events|
  {
    if events != [] {
      StepKeeps(w, events[0]);
      StepIsTallied(w, d, t, events[0]);
      RunIsTallied(Step(w, events[0]), d, TallyStep(t, w.cpus, d, events[0]), events[1..]);
    }
  }

  /**
   Conservation from packet to sample. Over any interleaving of packets on any CPU with key reads and collection
   ends, while the total fits in 64 bits: emitted + dropped + pending + residue is exactly what the packets come to.
   */
  lemma BytesAreConserved(cpus: nat, events: seq<Event>, d: Direction)
    ensures var w, t := Run(Start(cpus), events), TallyOf(Tally({}, 0, 0), cpus, d, events);
            && (t.bytes < U64_LIMIT ==>
                  ReportedBytes(w, d) + ResidueBytes(w, d) == t.bytes && ResidueBytes(w, d) >= 0)
            && (t.packets < U64_LIMIT ==>
                  ReportedPackets(w, d) + ResiduePackets(w, d) == t.packets && ResiduePackets(w, d) >= 0)
  {
    StartOk(cpus);
    StartTelescoped(Zeros(cpus), Zeros(cpus));
    RunIsTallied(Start(cpus), d, Tally({}, 0, 0), events);
    var w := Run(Start(cpus), events);
    assert DirectionOk(w, d);
    var c, a := CountersOf(w.counters, w.cpus, d), w.audit[d];
    ReadKeeps(c.bytes, a.bytes, PreviousOf(w.previous, d).bytes, ReportedBytes(w, d));
    ReadKeeps(c.packets, a.packets, PreviousOf(w.previous, d).packets, ReportedPackets(w, d));
  }

  /** Only a failed collection drops anything. */
  lemma {:induction false} NothingDroppedWithoutFailure(w: World, events: seq<Event>)
    requires forall i :: 0 <= i < |events| ==> events[i] != CollectionEnded(true)
    ensures Run(w, events).dropped == w.dropped
    decreases |events|
  {
    if events != [] {
      assert forall i :: 0 <= i < |events[1..]| ==> events[1..][i] == events[i + 1];
      NothingDroppedWithoutFailure(Step(w, events[0]), events[1..]);
    }
  }
}
