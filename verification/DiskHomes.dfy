/**
 The in-flight columns of the disk counters CPU by CPU: which CPU each live start landed on, and how
 completions on other CPUs make a single column drift, even below zero.
 */
module DiskHomes {
  import opened Common
  import opened PerCpu
  import opened DiskLedger

  /** A number of starts and their bytes. */
  datatype Load = Load(operations: nat, bytes: nat)

  const NO_LOAD := Load(0, 0)

  function AddStart(l: Load, key: RequestKey): Load {
    Load(l.operations + 1, l.bytes + key.bytes)
  }

  /**
   Audit of one CPU: the CPU every live start of the watched direction landed on; of the starts that landed
   here, those lost and those taken elsewhere; and the starts that landed elsewhere and were taken here.
   */
  datatype Home = Home(landed: map<RequestKey, nat>, lost: Load, away: Load, foreign: Load)

  const NO_HOME := Home(map[], NO_LOAD, NO_LOAD, NO_LOAD)

  /** The live starts that landed on the CPU. */
  function Own(landed: map<RequestKey, nat>, cpu: nat): set<RequestKey> {
    set key | key in landed && landed[key] == cpu
  }

  ghost function HomeAfterIssue(k: Kernel, h: Home, d: Direction, cpu: nat, i: Issue): Home {
    var gone := Toward(PushedOut(k, i), d);
    var kept, lost := h.landed - gone, Own(h.landed, cpu) * gone;
    h.(landed := if Lands(k, d, i) then kept[IssueKey(i) := i.cpu] else kept,
       lost := Load(h.lost.operations + |lost|, h.lost.bytes + Weight(lost)))
  }

  /** The start was taken by a completion that ran on `taker`. */
  function HomeAfterTake(h: Home, cpu: nat, key: RequestKey, taker: nat): Home
    requires key in h.landed
  {
    var home := h.landed[key];
    h.(landed := h.landed - {key},
       away := if home == cpu && taker != cpu then AddStart(h.away, key) else h.away,
       foreign := if home != cpu && taker == cpu then AddStart(h.foreign, key) else h.foreign)
  }

  predicate TakesLanded(w: World, h: Home, e: Completion) {
    Takes(w.kernel, w.watched, e) && CompletionKey(e) in h.landed
  }

  ghost function HomeStep(w: World, h: Home, cpu: nat, e: Event): Home {
    if !Enabled(w, e) then h
    else
      match e
      case Issued(i) => HomeAfterIssue(w.kernel, h, w.watched, cpu, i)
      case Completed(c) => if TakesLanded(w, h, c) then HomeAfterTake(h, cpu, CompletionKey(c), c.cpu) else h
      case _ => h
  }

  ghost function HomeRun(w: World, h: Home, cpu: nat, events: seq<Event>): Home
    decreases |events|
  {
    if events == [] then h else HomeRun(Step(w, events[0]), HomeStep(w, h, cpu, events[0]), cpu, events[1..])
  }

  // ------------------------------------------------------------------ the account

  /** Own live starts, lost ones and those taken elsewhere, less the foreign ones taken here. */
  function Balance(own: int, lost: int, away: int, foreign: int): int {
    own + lost + away - foreign
  }

  ghost predicate Balanced(operations: int, bytes: int, own: set<RequestKey>, lost: Load, away: Load, foreign: Load) {
    && operations == Balance(|own|, lost.operations, away.operations, foreign.operations)
    && bytes == Balance(Weight(own), lost.bytes, away.bytes, foreign.bytes)
  }

  ghost predicate HomeOk(k: Kernel, d: Direction, a: Audit, h: Home, cpu: nat) {
    && cpu < |a.inFlightOperations| && cpu < |a.inFlightBytes|
    && h.landed.Keys == Toward(k.starts.Keys, d)
    && Balanced(a.inFlightOperations[cpu], a.inFlightBytes[cpu], Own(h.landed, cpu), h.lost, h.away, h.foreign)
  }

  lemma OwnWithout(landed: map<RequestKey, nat>, gone: set<RequestKey>, cpu: nat)
    ensures Own(landed - gone, cpu) == Own(landed, cpu) - gone
  {
  }

  lemma OwnWith(kept: map<RequestKey, nat>, key: RequestKey, home: nat, cpu: nat)
    requires key !in kept
    ensures Own(kept[key := home], cpu) == if home == cpu then Own(kept, cpu) + {key} else Own(kept, cpu)
  {
  }

  lemma LandsOnNew(k: Kernel, landed: map<RequestKey, nat>, d: Direction, i: Issue)
    requires Lands(k, d, i) && landed.Keys == Toward(k.starts.Keys, d)
    ensures IssueKey(i) !in landed - Toward(PushedOut(k, i), d)
  {
    if IssueKey(i) in k.starts {
      assert IssueKey(i) in Toward(PushedOut(k, i), d);
    }
  }

  lemma OwnAfterIssue(k: Kernel, cpus: nat, h: Home, d: Direction, cpu: nat, i: Issue)
    requires Shaped(k, cpus) && i.cpu < cpus
    requires d !in k.counters ==> Toward(k.starts.Keys, d) == {}
    requires h.landed.Keys == Toward(k.starts.Keys, d)
    ensures var after, gone := HomeAfterIssue(k, h, d, cpu, i), Toward(PushedOut(k, i), d);
            var kept := Own(h.landed, cpu) - gone;
            && after.landed.Keys == Toward(AfterIssue(k, cpus, i).starts.Keys, d)
            && Own(after.landed, cpu) == (if Lands(k, d, i) && i.cpu == cpu then kept + {IssueKey(i)} else kept)
            && (Lands(k, d, i) ==> IssueKey(i) !in kept)
  {
    var gone := Toward(PushedOut(k, i), d);
    var kept := h.landed - gone;
    StartsAfterIssue(k, cpus, d, i);
    OwnWithout(h.landed, gone, cpu);
    assert kept.Keys == Toward(k.starts.Keys, d) - gone;
    if Lands(k, d, i) {
      LandsOnNew(k, h.landed, d, i);
      OwnWith(kept, IssueKey(i), i.cpu, cpu);
      assert kept[IssueKey(i) := i.cpu].Keys == kept.Keys + {IssueKey(i)};
    }
  }

  lemma CountMoved(before: set<RequestKey>, gone: set<RequestKey>, landed: Option<RequestKey>)
    requires landed.Some? ==> landed.value !in before - gone
    ensures var kept, lost := before - gone, before * gone;
            var after := if landed.Some? then kept + {landed.value} else kept;
            && |after| + |lost| == |before| + (if landed.Some? then 1 else 0)
            && Weight(after) + Weight(lost) == Weight(before) + (if landed.Some? then landed.value.bytes else 0)
  {
    assert before - before * gone == before - gone;
    SplitAndAdd(before, before * gone, landed);
  }

  lemma IssueMovesOwn(k: Kernel, cpus: nat, h: Home, d: Direction, cpu: nat, i: Issue)
    requires Shaped(k, cpus) && i.cpu < cpus
    requires d !in k.counters ==> Toward(k.starts.Keys, d) == {}
    requires h.landed.Keys == Toward(k.starts.Keys, d)
    ensures var before, after := Own(h.landed, cpu), Own(HomeAfterIssue(k, h, d, cpu, i).landed, cpu);
            var lost := before * Toward(PushedOut(k, i), d);
            var here := Lands(k, d, i) && i.cpu == cpu;
            && |after| + |lost| == |before| + (if here then 1 else 0)
            && Weight(after) + Weight(lost) == Weight(before) + (if here then i.bytes else 0)
  {
    OwnAfterIssue(k, cpus, h, d, cpu, i);
    CountMoved(Own(h.landed, cpu), Toward(PushedOut(k, i), d),
               if Lands(k, d, i) && i.cpu == cpu then Some(IssueKey(i)) else None);
  }

  lemma IssueMovesAudit(k: Kernel, cpus: nat, a: Audit, d: Direction, cpu: nat, i: Issue)
    requires i.cpu < cpus && AuditWidth(a, cpus) && cpu < cpus
    ensures var b, here := AuditIssue(k, cpus, a, d, i), Lands(k, d, i) && i.cpu == cpu;
            && AuditWidth(b, cpus)
            && b.inFlightOperations[cpu] == a.inFlightOperations[cpu] + (if here then 1 else 0)
            && b.inFlightBytes[cpu] == a.inFlightBytes[cpu] + (if here then i.bytes else 0)
  {
  }

  lemma IssueKeepsBalance(k: Kernel, cpus: nat, h: Home, d: Direction, cpu: nat, i: Issue, operations: int, bytes: int)
    requires Shaped(k, cpus) && i.cpu < cpus
    requires d !in k.counters ==> Toward(k.starts.Keys, d) == {}
    requires h.landed.Keys == Toward(k.starts.Keys, d)
    requires Balanced(operations, bytes, Own(h.landed, cpu), h.lost, h.away, h.foreign)
    ensures var t, here := HomeAfterIssue(k, h, d, cpu, i), Lands(k, d, i) && i.cpu == cpu;
            Balanced(operations + (if here then 1 else 0), bytes + (if here then i.bytes else 0),
                     Own(t.landed, cpu), t.lost, t.away, t.foreign)
  {
    IssueMovesOwn(k, cpus, h, d, cpu, i);
  }

  lemma IssueKeepsHome(k: Kernel, cpus: nat, d: Direction, a: Audit, h: Home, cpu: nat, i: Issue)
    requires Shaped(k, cpus) && i.cpu < cpus && AuditWidth(a, cpus)
    requires d !in k.counters ==> Toward(k.starts.Keys, d) == {}
    requires HomeOk(k, d, a, h, cpu)
    ensures HomeOk(AfterIssue(k, cpus, i), d, AuditIssue(k, cpus, a, d, i), HomeAfterIssue(k, h, d, cpu, i), cpu)
  {
    OwnAfterIssue(k, cpus, h, d, cpu, i);
    IssueMovesAudit(k, cpus, a, d, cpu, i);
    IssueKeepsBalance(k, cpus, h, d, cpu, i, a.inFlightOperations[cpu], a.inFlightBytes[cpu]);
  }

  lemma TakeMovesOwn(h: Home, cpu: nat, key: RequestKey, taker: nat)
    requires key in h.landed
    ensures var before, after := Own(h.landed, cpu), Own(HomeAfterTake(h, cpu, key, taker).landed, cpu);
            if h.landed[key] == cpu
            then |after| + 1 == |before| && Weight(after) + key.bytes == Weight(before)
            else after == before
  {
    var before, after := Own(h.landed, cpu), Own(HomeAfterTake(h, cpu, key, taker).landed, cpu);
    if h.landed[key] == cpu {
      assert after == before - {key};
      WeightPick(before, key);
    } else {
      assert after == before;
    }
  }

  lemma TakeKeepsBalance(h: Home, cpu: nat, key: RequestKey, taker: nat, operations: int, bytes: int)
    requires key in h.landed
    requires Balanced(operations, bytes, Own(h.landed, cpu), h.lost, h.away, h.foreign)
    ensures var t := HomeAfterTake(h, cpu, key, taker);
            Balanced(if taker == cpu then operations - 1 else operations, if taker == cpu then bytes - key.bytes else bytes,
                     Own(t.landed, cpu), t.lost, t.away, t.foreign)
  {
    TakeMovesOwn(h, cpu, key, taker);
  }

  lemma StartsAfterTake(k: Kernel, cpus: nat, d: Direction, e: Completion)
    requires Shaped(k, cpus) && e.cpu < cpus
    ensures Toward(AfterCompletion(k, cpus, e).starts.Keys, d)
         == if Takes(k, d, e) then Toward(k.starts.Keys, d) - {CompletionKey(e)} else Toward(k.starts.Keys, d)
  {
    if !Skipped(k, e) && CompletionKey(e) in k.starts {
      assert AfterCompletion(k, cpus, e).starts.Keys == k.starts.Keys - {CompletionKey(e)};
    }
  }

  lemma CompletionKeepsHome(k: Kernel, cpus: nat, d: Direction, a: Audit, h: Home, cpu: nat, e: Completion)
    requires Shaped(k, cpus) && e.cpu < cpus && AuditWidth(a, cpus) && HomeOk(k, d, a, h, cpu)
    ensures var after := if Takes(k, d, e) && CompletionKey(e) in h.landed
                         then HomeAfterTake(h, cpu, CompletionKey(e), e.cpu) else h;
            HomeOk(AfterCompletion(k, cpus, e), d, AuditCompletion(k, cpus, a, d, e), after, cpu)
  {
    StartsAfterTake(k, cpus, d, e);
    CompletionMovesAudit(k, cpus, a, d, e);
    if Takes(k, d, e) {
      var key := CompletionKey(e);
      assert key in Toward(k.starts.Keys, d);
      TakeKeepsBalance(h, cpu, key, e.cpu, a.inFlightOperations[cpu], a.inFlightBytes[cpu]);
    }
  }

  lemma StepKeepsHome(w: World, h: Home, cpu: nat, e: Event)
    requires Inv(w) && HomeOk(w.kernel, w.watched, w.audit, h, cpu)
    ensures var t := Step(w, e); HomeOk(t.kernel, t.watched, t.audit, HomeStep(w, h, cpu, e), cpu)
  {
    if Enabled(w, e) {
      match e
      case Issued(i) => IssueKeepsHome(w.kernel, w.cpus, w.watched, w.audit, h, cpu, i);
      case Completed(c) => CompletionKeepsHome(w.kernel, w.cpus, w.watched, w.audit, h, cpu, c);
      case _ =>
    }
  }

  lemma {:induction false} RunKeepsHome(w: World, h: Home, cpu: nat, events: seq<Event>)
    requires Inv(w) && HomeOk(w.kernel, w.watched, w.audit, h, cpu)
    ensures var t := Run(w, events); HomeOk(t.kernel, t.watched, t.audit, HomeRun(w, h, cpu, events), cpu)
    decreases |events|
  {
    if events != [] {
      StepKeepsHome(w, h, cpu, events[0]);
      StepKeeps(w, events[0]);
      RunKeepsHome(Step(w, events[0]), HomeStep(w, h, cpu, events[0]), cpu, events[1..]);
    }
  }

  lemma StartIsHome(cpus: nat, watched: Direction, cpu: nat)
    requires cpu < cpus
    ensures var w := Start(cpus, watched); HomeOk(w.kernel, w.watched, w.audit, NO_HOME, cpu)
  {
    var none: set<RequestKey> := {};
    var w := Start(cpus, watched);
    assert Own(NO_HOME.landed, cpu) == none && NO_HOME.landed.Keys == none == Toward(w.kernel.starts.Keys, watched);
  }

  // ------------------------------------------------------------------ main results

  /** The stored word is the exact value while that fits in 64 bits. */
  predicate Stored(word: s64, exact: int) {
    -S64_LIMIT <= exact < S64_LIMIT ==> word == exact
  }

  ghost predicate ColumnAccounted(w: World, h: Home, cpu: nat) {
    var a, c, own := w.audit, CountersOf(w.kernel, w.cpus, w.watched), Own(h.landed, cpu);
    && HomeOk(w.kernel, w.watched, a, h, cpu)
    && cpu < |c.inFlightOperations| && Stored(c.inFlightOperations[cpu], a.inFlightOperations[cpu])
    && cpu < |c.inFlightBytes| && Stored(c.inFlightBytes[cpu], a.inFlightBytes[cpu])
    && (a.inFlightOperations[cpu] < 0 <==> h.foreign.operations > |own| + h.lost.operations + h.away.operations)
    && (a.inFlightBytes[cpu] < 0 <==> h.foreign.bytes > Weight(own) + h.lost.bytes + h.away.bytes)
  }

  lemma AccountedFrom(w: World, h: Home, cpu: nat)
    requires Inv(w) && HomeOk(w.kernel, w.watched, w.audit, h, cpu)
    ensures ColumnAccounted(w, h, cpu)
  {
    var a, c := w.audit, CountersOf(w.kernel, w.cpus, w.watched);
    assert TracksSigned(c.inFlightOperations, a.inFlightOperations);
    assert TracksSigned(c.inFlightBytes, a.inFlightBytes);
  }

  /** The audits of all CPUs share one record of where the live starts landed. */
  lemma {:induction false} LandingsAreShared(w: World, h: Home, g: Home, cpu: nat, other: nat, events: seq<Event>)
    requires h.landed == g.landed
    ensures HomeRun(w, h, cpu, events).landed == HomeRun(w, g, other, events).landed
    decreases |events|
  {
    if events != [] {
      LandingsAreShared(Step(w, events[0]), HomeStep(w, h, cpu, events[0]), HomeStep(w, g, other, events[0]),
                        cpu, other, events[1..]);
    }
  }

  /**
   In every run, each CPU's in-flight column is its own live starts, plus the starts that landed on it and were
   lost or taken elsewhere, minus the starts that landed elsewhere and were taken on it. So it is negative
   exactly when the latter outnumber the former.
   */
  lemma ColumnIsAccounted(cpus: nat, watched: Direction, events: seq<Event>, cpu: nat)
    requires cpu < cpus
    ensures ColumnAccounted(Run(Start(cpus, watched), events), HomeRun(Start(cpus, watched), NO_HOME, cpu, events), cpu)
    ensures Run(Start(cpus, watched), events).watched == watched
  {
    StartOk(cpus, watched);
    StartIsHome(cpus, watched, cpu);
    RunKeeps(Start(cpus, watched), events);
    RunKeepsHome(Start(cpus, watched), NO_HOME, cpu, events);
    WatchedStays(Start(cpus, watched), events);
    AccountedFrom(Run(Start(cpus, watched), events), HomeRun(Start(cpus, watched), NO_HOME, cpu, events), cpu);
  }

  /** Every start this CPU's completions take landed on this CPU. */
  ghost predicate TakesOwnOnly(w: World, h: Home, cpu: nat, events: seq<Event>)
    decreases |events|
  {
    events != [] ==>
      && (events[0].Completed? && events[0].completion.cpu == cpu && TakesLanded(w, h, events[0].completion) ==>
            h.landed[CompletionKey(events[0].completion)] == cpu)
      && TakesOwnOnly(Step(w, events[0]), HomeStep(w, h, cpu, events[0]), cpu, events[1..])
  }

  lemma {:induction false} NothingForeign(w: World, h: Home, cpu: nat, events: seq<Event>)
    requires TakesOwnOnly(w, h, cpu, events)
    ensures HomeRun(w, h, cpu, events).foreign == h.foreign
    decreases |events|
  {
    if events != [] {
      assert HomeStep(w, h, cpu, events[0]).foreign == h.foreign;
      NothingForeign(Step(w, events[0]), HomeStep(w, h, cpu, events[0]), cpu, events[1..]);
    }
  }

  /** A CPU whose completions only take starts issued on it never has a negative column. */
  lemma OwnCompletionsStayNonNegative(cpus: nat, watched: Direction, events: seq<Event>, cpu: nat)
    requires cpu < cpus && TakesOwnOnly(Start(cpus, watched), NO_HOME, cpu, events)
    ensures var w := Run(Start(cpus, watched), events);
            && cpu < |w.audit.inFlightOperations| && w.audit.inFlightOperations[cpu] >= 0
            && cpu < |w.audit.inFlightBytes| && w.audit.inFlightBytes[cpu] >= 0
  {
    ColumnIsAccounted(cpus, watched, events, cpu);
    NothingForeign(Start(cpus, watched), NO_HOME, cpu, events);
  }
}
