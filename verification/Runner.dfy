/**
 The collector runner: one endless loop per collector with lazy load, disable, panic recovery and two
 places to sleep. Each iteration is driven by the config it read, by whether a load would succeed and
 by how a collection would end; the loop is modelled over any finite number of iterations.
 */
module Runner {
  import opened Common

  datatype Config = Config(enabled: bool, interval: u64, version: string)

  /** A loaded provider with what was last applied to it, and (audit) the clock when it was loaded. */
  datatype Provider = Provider(id: nat, window: u64, applied: Option<Config>, loadedAt: nat)

  /** How `collect` ends: samples, an error, or a panic of the blocking task. */
  datatype Ending<S> = Samples(samples: seq<S>) | Failed | Panicked

  datatype Input<S> = Input(config: Config, loads: bool, ending: Ending<S>)

  /** Sinks, processors and the sleep placement, fixed for one collector. */
  datatype Spec<!S> = Spec(sleepBeforeCollect: bool, sinks: nat, process: S -> Option<S>)

  datatype Action<S> =
    | LoggedDisabled
    | Loaded(id: nat)
    | LoadFailed
    | Stopped(id: nat)
    | Slept(seconds: u64)
    | Collected(provider: Provider, at: nat)
    | Lost(id: nat)
    | Emitted(sink: nat, sample: S, version: string)

  /** `clock` counts the seconds slept so far, `loads` the providers built so far. */
  datatype State = State(provider: Option<Provider>, disabledLogged: bool, clock: nat, loads: nat)

  const START := State(None, false, 0, 0)

  // --------------------------------------------------------------- fan-out

  function ToSinks<S>(sinks: nat, sample: S, version: string): seq<Action<S>> {
    if sinks == 0 then [] else ToSinks(sinks - 1, sample, version) + [Emitted(sinks - 1, sample, version)]
  }

  /** Every sample the processors keep goes to every sink, in order. */
  function FanOut<S>(spec: Spec<S>, samples: seq<S>, version: string): seq<Action<S>> {
    if samples == [] then []
    else
      var before := FanOut(spec, samples[..|samples| - 1], version);
      match spec.process(samples[|samples| - 1])
      case None => before
      case Some(kept) => before + ToSinks(spec.sinks, kept, version)
  }

  // ------------------------------------------------------------- one iteration

  datatype Turn<S> = Turn(state: State, actions: seq<Action<S>>)

  function Sleep<S>(t: Turn<S>, seconds: u64): Turn<S> {
    Turn(t.state.(clock := t.state.clock + seconds), t.actions + [Slept(seconds)])
  }

  function DisabledTurn<S>(s: State, config: Config): Turn<S> {
    var stopped := if s.provider.Some? then [Stopped(s.provider.value.id)] else [];
    var logged := if s.disabledLogged then [] else [LoggedDisabled];
    Sleep(Turn(s.(provider := None, disabledLogged := true), stopped + logged), config.interval)
  }

  /** The provider the iteration works with, loaded now if none is held. */
  function Acquire<S>(s: State, input: Input<S>): Turn<S> {
    if s.provider.Some? then Turn(s, [])
    else if !input.loads then Turn(s, [LoadFailed])
    else
      Turn(s.(provider := Some(Provider(s.loads, input.config.interval, None, s.clock)), loads := s.loads + 1),
           [Loaded(s.loads)])
  }

  /** Applies the iteration's config to the provider and collects. */
  function Gather<S>(spec: Spec<S>, t: Turn<S>, input: Input<S>): Turn<S>
    requires t.state.provider.Some?
  {
    var ready := t.state.provider.value.(window := input.config.interval, applied := Some(input.config));
    var collected := t.actions + [Collected(ready, t.state.clock)];
    match input.ending
    case Panicked => Turn(t.state.(provider := None), collected + [Lost(ready.id)])
    case Failed => Turn(t.state.(provider := Some(ready)), collected)
    case Samples(samples) =>
      Turn(t.state.(provider := Some(ready)), collected + FanOut(spec, samples, input.config.version))
  }

  function Iterate<S>(spec: Spec<S>, s: State, input: Input<S>): Turn<S> {
    if !input.config.enabled then DisabledTurn(s, input.config)
    else
      var acquired := Acquire(s.(disabledLogged := false), input);
      if acquired.state.provider.None? then Sleep(acquired, input.config.interval)
      else if spec.sleepBeforeCollect then Gather(spec, Sleep(acquired, input.config.interval), input)
      else Sleep(Gather(spec, acquired, input), input.config.interval)
  }

  function StateAfter<S>(spec: Spec<S>, inputs: seq<Input<S>>): State {
    if inputs == [] then START
    else Iterate(spec, StateAfter(spec, inputs[..|inputs| - 1]), inputs[|inputs| - 1]).state
  }

  /** What iteration `i` of a run does. */
  function ActionsOf<S>(spec: Spec<S>, inputs: seq<Input<S>>, i: nat): seq<Action<S>>
    requires i < |inputs|
  {
    Iterate(spec, StateAfter(spec, inputs[..i]), inputs[i]).actions
  }

  /** The actions of all iterations, in order. */
  function Trace<S>(spec: Spec<S>, inputs: seq<Input<S>>): seq<Action<S>> {
    if inputs == [] then []
    else
      var n := |inputs| - 1;
      Trace(spec, inputs[..n]) + Iterate(spec, StateAfter(spec, inputs[..n]), inputs[n]).actions
  }

  // ------------------------------------------------------------ the loop itself

  class Collector<!S> {
    const spec: Spec<S>
    var provider: Option<Provider>
    var disabledLogged: bool
    var clock: nat
    var loads: nat
    var actions: seq<Action<S>>

    function View(): State
      reads this
    {
      State(provider, disabledLogged, clock, loads)
    }

    constructor (spec: Spec<S>)
      ensures this.spec == spec && View() == START
    {
      this.spec := spec;
      provider, disabledLogged, clock, loads, actions := None, false, 0, 0, [];
    }

    method SleepFor(seconds: u64)
      modifies this`clock, this`actions
      ensures Turn(View(), actions) == Sleep(Turn(old(View()), old(actions)), seconds)
    {
      clock := clock + seconds;
      actions := actions + [Slept(seconds)];
    }

    method EmitAll(samples: seq<S>, version: string)
      modifies this`actions
      ensures actions == old(actions) + FanOut(spec, samples, version)
    {
      for i := 0 to |samples|
        invariant actions == old(actions) + FanOut(spec, samples[..i], version)
      {
        assert samples[..i + 1][..i] == samples[..i];
        var kept := spec.process(samples[i]);
        if kept.Some? {
          ghost var before := actions;
          for sink := 0 to spec.sinks
            invariant actions == before + ToSinks(sink, kept.value, version)
          {
            actions := actions + [Emitted(sink, kept.value, version)];
          }
        }
      }
      assert samples[..|samples|] == samples;
    }

    method Disable(config: Config)
      requires actions == []
      modifies this
      ensures Turn(View(), actions) == DisabledTurn(old(View()), config)
    {
      if provider.Some? {
        actions := actions + [Stopped(provider.value.id)];
        provider := None;
      }
      if !disabledLogged {
        actions := actions + [LoggedDisabled];
        disabledLogged := true;
      }
      SleepFor(config.interval);
    }

    method StartProvider(input: Input<S>)
      requires actions == []
      modifies this
      ensures Turn(View(), actions) == Acquire(old(View()), input)
    {
      if provider.None? {
        if input.loads {
          provider := Some(Provider(loads, input.config.interval, None, clock));
          actions := actions + [Loaded(loads)];
          loads := loads + 1;
        } else {
          actions := actions + [LoadFailed];
        }
      }
    }

    /** Takes the provider out while it collects; a panic takes it away for good. */
    method CollectOnce(input: Input<S>)
      requires provider.Some?
      modifies this
      ensures Turn(View(), actions) == Gather(spec, Turn(old(View()), old(actions)), input)
    {
      var taken := provider.value;
      provider := None;
      taken := taken.(window := input.config.interval);
      taken := taken.(applied := Some(input.config));
      actions := actions + [Collected(taken, clock)];
      if input.ending.Panicked? {
        actions := actions + [Lost(taken.id)];
        return;
      }
      provider := Some(taken);
      if input.ending.Samples? {
        EmitAll(input.ending.samples, input.config.version);
      }
    }

    /** One pass through the loop of `run_collector`. */
    method Pass(input: Input<S>)
      modifies this
      ensures Turn(View(), actions) == Iterate(spec, old(View()), input)
    {
      actions := [];
      var config := input.config;
      if !config.enabled {
        Disable(config);
        return;
      }
      disabledLogged := false;
      StartProvider(input);
      if provider.None? {
        SleepFor(config.interval);
        return;
      }
      if spec.sleepBeforeCollect {
        SleepFor(config.interval);
      }
      CollectOnce(input);
      if !spec.sleepBeforeCollect {
        SleepFor(config.interval);
      }
    }

    method RunCollector(inputs: seq<Input<S>>) returns (trace: seq<Action<S>>)
      requires View() == START
      modifies this
      ensures View() == StateAfter(spec, inputs) && trace == Trace(spec, inputs)
    {
      trace := [];
      for i := 0 to |inputs|
        invariant View() == StateAfter(spec, inputs[..i]) && trace == Trace(spec, inputs[..i])
      {
        assert inputs[..i + 1][..i] == inputs[..i];
        Pass(inputs[i]);
        trace := trace + actions;
      }
      assert inputs[..|inputs|] == inputs;
    }
  }

  // ------------------------------------------------------------- discipline

  function SleepCount<S>(actions: seq<Action<S>>): nat {
    if actions == [] then 0
    else SleepCount(actions[..|actions| - 1]) + (if actions[|actions| - 1].Slept? then 1 else 0)
  }

  lemma {:induction false} SleepCountConcat<S>(a: seq<Action<S>>, b: seq<Action<S>>)
    ensures SleepCount(a + b) == SleepCount(a) + SleepCount(b)
  {
    if b == [] {
      assert a + b == a;
    } else {
      assert (a + b)[..|a + b| - 1] == a + b[..|b| - 1];
      SleepCountConcat(a, b[..|b| - 1]);
    }
  }

  /** Which provider a trace holds at its end; None also for a trace that ever held two at once. */
  datatype Holder = Nobody | One(id: nat) | Broken

  function Hold<S>(h: Holder, a: Action<S>): Holder {
    match a
    case Loaded(id) => if h == Nobody then One(id) else Broken
    case Stopped(id) => if h == One(id) then Nobody else Broken
    case Lost(id) => if h == One(id) then Nobody else Broken
    case Collected(p, _) => if h == One(p.id) then h else Broken
    case _ => h
  }

  function HoldAll<S>(h: Holder, actions: seq<Action<S>>): Holder {
    if actions == [] then h else Hold(HoldAll(h, actions[..|actions| - 1]), actions[|actions| - 1])
  }

  lemma {:induction false} HoldConcat<S>(h: Holder, a: seq<Action<S>>, b: seq<Action<S>>)
    ensures HoldAll(h, a + b) == HoldAll(HoldAll(h, a), b)
  {
    if b == [] {
      assert a + b == a;
    } else {
      assert (a + b)[..|a + b| - 1] == a + b[..|b| - 1];
      HoldConcat(h, a, b[..|b| - 1]);
    }
  }

  function HolderOf(s: State): Holder {
    if s.provider.Some? then One(s.provider.value.id) else Nobody
  }

  /** Emissions are pure fan-out: right version, every sink, no other effect. */
  ghost predicate OnlyEmits<S>(actions: seq<Action<S>>, version: string) {
    forall i :: 0 <= i < |actions| ==> actions[i].Emitted? && actions[i].version == version
  }

  lemma {:induction false} FanOutOnlyEmits<S>(spec: Spec<S>, samples: seq<S>, version: string)
    ensures OnlyEmits(FanOut(spec, samples, version), version)
  {
    if samples != [] {
      FanOutOnlyEmits(spec, samples[..|samples| - 1], version);
      var kept := spec.process(samples[|samples| - 1]);
      if kept.Some? {
        ToSinksOnlyEmits(spec.sinks, kept.value, version);
      }
    }
  }

  lemma {:induction false} ToSinksOnlyEmits<S>(sinks: nat, sample: S, version: string)
    ensures OnlyEmits(ToSinks(sinks, sample, version), version)
    ensures |ToSinks(sinks, sample, version)| == sinks
    ensures forall i :: 0 <= i < sinks ==> ToSinks(sinks, sample, version)[i] == Emitted(i, sample, version)
  {
    if sinks > 0 {
      ToSinksOnlyEmits(sinks - 1, sample, version);
    }
  }

  lemma {:induction false} EmitsHoldStill<S>(h: Holder, actions: seq<Action<S>>, version: string)
    requires OnlyEmits(actions, version)
    ensures HoldAll(h, actions) == h && SleepCount(actions) == 0
  {
    if actions != [] {
      EmitsHoldStill(h, actions[..|actions| - 1], version);
    }
  }

  /**
   What one iteration may do under its config: sleep exactly once, for its interval; collect only with
   a provider that has this iteration's window and config applied, and for a window collector at least
   one such interval after loading; emit only under this config's version.
   */
  ghost predicate Disciplined<S>(spec: Spec<S>, config: Config, actions: seq<Action<S>>) {
    SleepCount(actions) == 1 && AllAllowed(spec, config, actions)
  }

  predicate Allowed<S>(spec: Spec<S>, config: Config, a: Action<S>) {
    match a
    case Slept(seconds) => seconds == config.interval
    case Collected(p, at) =>
      && config.enabled && p.window == config.interval && p.applied == Some(config)
      && (spec.sleepBeforeCollect ==> at >= p.loadedAt + config.interval)
    case Emitted(_, _, version) => version == config.version
    case _ => true
  }

  ghost predicate AllAllowed<S>(spec: Spec<S>, config: Config, actions: seq<Action<S>>) {
    forall i :: 0 <= i < |actions| ==> Allowed(spec, config, actions[i])
  }

  /** A held provider was loaded in the past. */
  predicate Sane(s: State) {
    s.provider.Some? ==> s.provider.value.loadedAt <= s.clock
  }

  /** The three facts kept along an iteration: sleeps so far, the holder so far, every action allowed. */
  ghost predicate Tally<S>(spec: Spec<S>, config: Config, h: Holder, actions: seq<Action<S>>, sleeps: nat, holder: Holder) {
    SleepCount(actions) == sleeps && HoldAll(h, actions) == holder && AllAllowed(spec, config, actions)
  }

  lemma AddOne<S>(spec: Spec<S>, config: Config, h: Holder, actions: seq<Action<S>>, a: Action<S>, sleeps: nat, holder: Holder)
    requires Tally(spec, config, h, actions, sleeps, holder) && Allowed(spec, config, a)
    ensures Tally(spec, config, h, actions + [a], sleeps + (if a.Slept? then 1 else 0), Hold(holder, a))
  {
    assert (actions + [a])[..|actions|] == actions;
  }

  lemma AddEmits<S>(spec: Spec<S>, config: Config, h: Holder, actions: seq<Action<S>>, emits: seq<Action<S>>, sleeps: nat, holder: Holder)
    requires Tally(spec, config, h, actions, sleeps, holder) && OnlyEmits(emits, config.version)
    ensures Tally(spec, config, h, actions + emits, sleeps, holder)
  {
    EmitsHoldStill(holder, emits, config.version);
    SleepCountConcat(actions, emits);
    HoldConcat(h, actions, emits);
  }

  lemma SleepTurn<S>(spec: Spec<S>, t: Turn<S>, config: Config, h: Holder, sleeps: nat)
    requires Tally(spec, config, h, t.actions, sleeps, HolderOf(t.state))
    ensures var u := Sleep(t, config.interval);
            Tally(spec, config, h, u.actions, sleeps + 1, HolderOf(u.state))
  {
    AddOne(spec, config, h, t.actions, Slept(config.interval), sleeps, HolderOf(t.state));
  }

  /** The provider may be collected now: enough time has passed since it was loaded. */
  predicate Ripe<S>(spec: Spec<S>, s: State, interval: u64) {
    s.provider.Some? && (spec.sleepBeforeCollect ==> s.clock >= s.provider.value.loadedAt + interval)
  }

  lemma GatherTurn<S>(spec: Spec<S>, t: Turn<S>, input: Input<S>, h: Holder, sleeps: nat)
    requires Ripe(spec, t.state, input.config.interval) && input.config.enabled
    requires Tally(spec, input.config, h, t.actions, sleeps, HolderOf(t.state))
    ensures var g := Gather(spec, t, input);
            Tally(spec, input.config, h, g.actions, sleeps, HolderOf(g.state))
  {
    var ready := t.state.provider.value.(window := input.config.interval, applied := Some(input.config));
    var collected := t.actions + [Collected(ready, t.state.clock)];
    AddOne(spec, input.config, h, t.actions, Collected(ready, t.state.clock), sleeps, HolderOf(t.state));
    match input.ending
    case Panicked => AddOne(spec, input.config, h, collected, Lost(ready.id), sleeps, One(ready.id));
    case Failed =>
    case Samples(samples) =>
      FanOutOnlyEmits(spec, samples, input.config.version);
      AddEmits(spec, input.config, h, collected, FanOut(spec, samples, input.config.version), sleeps, One(ready.id));
  }

  lemma AcquireTurn<S>(spec: Spec<S>, s: State, input: Input<S>)
    ensures var a := Acquire(s, input);
            Tally(spec, input.config, HolderOf(s), a.actions, 0, HolderOf(a.state))
  {
    if s.provider.None? {
      AddOne(spec, input.config, HolderOf(s), [], if input.loads then Loaded(s.loads) else LoadFailed, 0, HolderOf(s));
      assert Acquire(s, input).actions == [] + [if input.loads then Loaded(s.loads) else LoadFailed];
    }
  }

  lemma DisabledTurnOk<S>(spec: Spec<S>, s: State, config: Config)
    ensures var t: Turn<S> := DisabledTurn(s, config);
            Tally(spec, config, HolderOf(s), t.actions, 1, HolderOf(t.state))
  {
    var stopped: seq<Action<S>> := if s.provider.Some? then [Stopped(s.provider.value.id)] else [];
    var logged: seq<Action<S>> := if s.disabledLogged then [] else [LoggedDisabled];
    if s.provider.Some? {
      AddOne(spec, config, HolderOf(s), [], Stopped(s.provider.value.id), 0, HolderOf(s));
      assert stopped == [] + [Stopped(s.provider.value.id)];
    }
    AddOne(spec, config, HolderOf(s), stopped, LoggedDisabled, 0, Nobody);
    assert s.disabledLogged ==> stopped + logged == stopped;
    SleepTurn(spec, Turn(s.(provider := None, disabledLogged := true), stopped + logged), config, HolderOf(s), 0);
  }

  lemma EnabledTurnOk<S>(spec: Spec<S>, s: State, input: Input<S>)
    requires Sane(s) && input.config.enabled && !s.disabledLogged
    ensures var t := Iterate(spec, s, input);
            Tally(spec, input.config, HolderOf(s), t.actions, 1, HolderOf(t.state))
  {
    var acquired := Acquire(s, input);
    AcquireTurn(spec, s, input);
    SleepTurn(spec, acquired, input.config, HolderOf(s), 0);
    if acquired.state.provider.Some? {
      if spec.sleepBeforeCollect {
        GatherTurn(spec, Sleep(acquired, input.config.interval), input, HolderOf(s), 1);
      } else {
        GatherTurn(spec, acquired, input, HolderOf(s), 0);
        SleepTurn(spec, Gather(spec, acquired, input), input.config, HolderOf(s), 0);
      }
    }
  }

  lemma ClockAdvances<S>(spec: Spec<S>, s: State, input: Input<S>)
    requires Sane(s)
    ensures Iterate(spec, s, input).state.clock == s.clock + input.config.interval
    ensures Sane(Iterate(spec, s, input).state)
  {
  }

  lemma IterationIsDisciplined<S>(spec: Spec<S>, s: State, input: Input<S>)
    requires Sane(s)
    ensures var t := Iterate(spec, s, input);
            && Disciplined(spec, input.config, t.actions)
            && HoldAll(HolderOf(s), t.actions) == HolderOf(t.state)
  {
    if !input.config.enabled {
      DisabledTurnOk(spec, s, input.config);
    } else {
      EnabledTurnOk(spec, s.(disabledLogged := false), input);
    }
  }

  lemma {:induction false} StateIsSane<S>(spec: Spec<S>, inputs: seq<Input<S>>)
    ensures Sane(StateAfter(spec, inputs))
  {
    if inputs != [] {
      var n := |inputs| - 1;
      StateIsSane(spec, inputs[..n]);
      ClockAdvances(spec, StateAfter(spec, inputs[..n]), inputs[n]);
    }
  }

  // ------------------------------------------------------- every sample, every sink

  lemma {:induction false} FanOutGrows<S>(spec: Spec<S>, samples: seq<S>, version: string, i: nat)
    requires i <= |samples|
    ensures FanOut(spec, samples[..i], version) <= FanOut(spec, samples, version)
    decreases |samples|
  {
    if i < |samples| {
      var shorter := samples[..|samples| - 1];
      FanOutGrows(spec, shorter, version, i);
      assert shorter[..i] == samples[..i];
    } else {
      assert samples[..i] == samples;
    }
  }

  /**
   Nothing is lost and nothing is sent twice: sample by sample, what is emitted grows by nothing if the processors
   drop it, and else by exactly one emission of it to each sink, under the given version.
   */
  lemma FanOutIsComplete<S>(spec: Spec<S>, samples: seq<S>, version: string, i: nat)
    requires i < |samples|
    ensures FanOut(spec, [], version) == []
    ensures FanOut(spec, samples[..i + 1], version) <= FanOut(spec, samples, version)
    ensures var before, after := FanOut(spec, samples[..i], version), FanOut(spec, samples[..i + 1], version);
            match spec.process(samples[i])
            case None => |after| == |before| && before <= after
            case Some(kept) =>
              && |after| == |before| + spec.sinks && before <= after
              && forall sink :: 0 <= sink < spec.sinks ==> after[|before| + sink] == Emitted(sink, kept, version)
  {
    FanOutGrows(spec, samples, version, i + 1);
    assert samples[..i + 1][..i] == samples[..i];
    var kept := spec.process(samples[i]);
    if kept.Some? {
      ToSinksOnlyEmits(spec.sinks, kept.value, version);
    }
  }

  // ---------------------------------------------------------- iteration by iteration

  /** Whether iteration `i` collects: it is enabled, and a provider is held from before or loads now. */
  predicate Collects<S>(inputs: seq<Input<S>>, i: nat)
    requires i < |inputs|
    decreases i, 1
  {
    inputs[i].config.enabled && (Holds(inputs, i) || inputs[i].loads)
  }

  /** Whether a provider is held when iteration `i` starts: the one before it collected and did not panic. */
  predicate Holds<S>(inputs: seq<Input<S>>, i: nat)
    requires i <= |inputs|
    decreases i, 0
  {
    i > 0 && Collects(inputs, i - 1) && !inputs[i - 1].ending.Panicked?
  }

  /** Whether the iteration before `i` was disabled too. */
  predicate WasDisabled<S>(inputs: seq<Input<S>>, i: nat)
    requires i <= |inputs|
  {
    i > 0 && !inputs[i - 1].config.enabled
  }

  lemma {:induction false} StateIs<S>(spec: Spec<S>, inputs: seq<Input<S>>, i: nat)
    requires i <= |inputs|
    ensures StateAfter(spec, inputs[..i]).provider.Some? <==> Holds(inputs, i)
    ensures StateAfter(spec, inputs[..i]).disabledLogged == WasDisabled(inputs, i)
  {
    if i > 0 {
      assert inputs[..i][..i - 1] == inputs[..i - 1];
      StateIs(spec, inputs, i - 1);
    }
  }

  /** What an iteration that collects does around the collection, with whatever provider it has. */
  function CollectionOf<S>(spec: Spec<S>, input: Input<S>, provider: Provider, at: nat): seq<Action<S>> {
    [Collected(provider, at)]
    + match input.ending
      case Panicked => [Lost(provider.id)]
      case Failed => []
      case Samples(samples) => FanOut(spec, samples, input.config.version)
  }

  ghost predicate Starts<S>(actions: seq<Action<S>>, held: bool, loads: bool) {
    if held then actions == []
    else if loads then |actions| == 1 && actions[0].Loaded?
    else actions == [LoadFailed]
  }

  /**
   Every iteration of every run, from its inputs alone. Disabled: a held provider is stopped, the first disabled
   iteration in a row is logged, and it sleeps. Enabled: a provider is loaded if none is held; if that fails, it
   sleeps. Otherwise it collects once, loses the provider on a panic, emits the samples it got, and sleeps
   before or after as its kind demands.
   */
  lemma EveryIterationIs<S>(spec: Spec<S>, inputs: seq<Input<S>>, i: nat)
    returns (first: seq<Action<S>>, provider: Provider, at: nat)
    requires i < |inputs|
    ensures var actions, sleep := ActionsOf(spec, inputs, i), [Slept(inputs[i].config.interval)];
            if !inputs[i].config.enabled then
              && actions == first + (if WasDisabled(inputs, i) then [] else [LoggedDisabled]) + sleep
              && (if Holds(inputs, i) then |first| == 1 && first[0].Stopped? else first == [])
            else
              && Starts(first, Holds(inputs, i), inputs[i].loads)
              && actions == if !Collects(inputs, i) then first + sleep
                            else if spec.sleepBeforeCollect then first + sleep + CollectionOf(spec, inputs[i], provider, at)
                            else first + CollectionOf(spec, inputs[i], provider, at) + sleep
  {
    StateIs(spec, inputs, i);
    var s, input := StateAfter(spec, inputs[..i]), inputs[i];
    provider, at := Provider(0, 0, None, 0), 0;
    if !input.config.enabled {
      first := if s.provider.Some? then [Stopped(s.provider.value.id)] else [];
    } else {
      var acquired := Acquire(s.(disabledLogged := false), input);
      first := acquired.actions;
      if acquired.state.provider.Some? {
        provider := acquired.state.provider.value.(window := input.config.interval, applied := Some(input.config));
        at := s.clock + (if spec.sleepBeforeCollect then input.config.interval else 0);
        CollectionIs(spec, acquired, input, provider, at);
      }
    }
  }

  lemma CollectionIs<S>(spec: Spec<S>, acquired: Turn<S>, input: Input<S>, provider: Provider, at: nat)
    requires acquired.state.provider.Some?
    requires provider == acquired.state.provider.value.(window := input.config.interval, applied := Some(input.config))
    requires at == acquired.state.clock + (if spec.sleepBeforeCollect then input.config.interval else 0)
    ensures var sleep := [Slept(input.config.interval)];
            if spec.sleepBeforeCollect
            then Gather(spec, Sleep(acquired, input.config.interval), input).actions
                 == acquired.actions + sleep + CollectionOf(spec, input, provider, at)
            else Sleep(Gather(spec, acquired, input), input.config.interval).actions
                 == acquired.actions + CollectionOf(spec, input, provider, at) + sleep
  {
    var before := if spec.sleepBeforeCollect then Sleep(acquired, input.config.interval) else acquired;
    var rest := match input.ending
      case Panicked => [Lost(provider.id)]
      case Failed => []
      case Samples(samples) => FanOut(spec, samples, input.config.version);
    assert Gather(spec, before, input).actions == before.actions + [Collected(provider, at)] + rest by {
      if input.ending.Failed? {
        assert before.actions + [Collected(provider, at)] + [] == before.actions + [Collected(provider, at)];
      }
    }
    Regroup(before.actions, [Collected(provider, at)], rest);
  }

  // ------------------------------------------------------------ main results

  /** Every iteration of every run keeps the discipline of its own config. */
  lemma EveryIterationIsDisciplined<S>(spec: Spec<S>, inputs: seq<Input<S>>, i: nat)
    requires i < |inputs|
    ensures Disciplined(spec, inputs[i].config, ActionsOf(spec, inputs, i))
  {
    StateIsSane(spec, inputs[..i]);
    IterationIsDisciplined(spec, StateAfter(spec, inputs[..i]), inputs[i]);
  }

  /** At every moment of every run at most one provider is held, and only a held one is collected, stopped or lost. */
  lemma {:induction false} NeverTwoProviders<S>(spec: Spec<S>, inputs: seq<Input<S>>, moment: nat)
    requires moment <= |Trace(spec, inputs)|
    ensures HoldAll(Nobody, Trace(spec, inputs)[..moment]) != Broken
  {
    TraceHolds(spec, inputs);
    var trace := Trace(spec, inputs);
    assert trace == trace[..moment] + trace[moment..];
    HoldConcat(Nobody, trace[..moment], trace[moment..]);
    if HoldAll(Nobody, trace[..moment]) == Broken {
      BrokenForever(trace[moment..]);
    }
  }

  lemma {:induction false} TraceHolds<S>(spec: Spec<S>, inputs: seq<Input<S>>)
    ensures HoldAll(Nobody, Trace(spec, inputs)) == HolderOf(StateAfter(spec, inputs))
  {
    if inputs != [] {
      var n := |inputs| - 1;
      TraceHolds(spec, inputs[..n]);
      StateIsSane(spec, inputs[..n]);
      IterationIsDisciplined(spec, StateAfter(spec, inputs[..n]), inputs[n]);
      HoldConcat(Nobody, Trace(spec, inputs[..n]), Iterate(spec, StateAfter(spec, inputs[..n]), inputs[n]).actions);
    }
  }

  lemma {:induction false} BrokenForever<S>(actions: seq<Action<S>>)
    ensures HoldAll(Broken, actions) == Broken
  {
    if actions != [] {
      BrokenForever(actions[..|actions| - 1]);
    }
  }

  /** After n iterations the runner has slept exactly the sum of the n intervals, whatever failed. */
  function IntervalSum<S>(inputs: seq<Input<S>>): nat {
    if inputs == [] then 0 else IntervalSum(inputs[..|inputs| - 1]) + inputs[|inputs| - 1].config.interval
  }

  lemma {:induction false} ClockIsIntervalSum<S>(spec: Spec<S>, inputs: seq<Input<S>>)
    ensures StateAfter(spec, inputs).clock == IntervalSum(inputs)
  {
    if inputs != [] {
      var n := |inputs| - 1;
      ClockIsIntervalSum(spec, inputs[..n]);
      StateIsSane(spec, inputs[..n]);
      ClockAdvances(spec, StateAfter(spec, inputs[..n]), inputs[n]);
    }
  }
}
