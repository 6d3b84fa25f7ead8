/**
 Who gets in, and what is known of them: in every run a connection is bound to an agent only after presenting that
 agent's token under a config that was active at the time, and its entry says what it last reported.
 */
module Admission {
  import opened Common
  import opened RuntimeConfigs
  import opened Registry
  import opened ControlPlane
  import Delivery

  /** The token was good for the agent under that hostname in one of the configs that have been active. */
  ghost predicate Admitted(enc: Encoding, history: seq<LoadedConfig>, a: AgentId, hostname: string, token: Option<string>) {
    exists i :: 0 <= i < |history| && Presents(enc, history[i].file, a, hostname, token)
  }

  /** An authorized hello waits for the registry, and a binding came from such a hello. */
  ghost predicate Vouched(enc: Encoding, history: seq<LoadedConfig>, c: Connection) {
    && (c.task.Registering? ==> Admitted(enc, history, c.task.hello.agentId, c.task.hello.hostname, c.token))
    && (c.current.Some? ==> exists hostname :: Admitted(enc, history, c.current.value, hostname, c.token))
  }

  ghost predicate AllVouched(enc: Encoding, w: World) {
    forall id :: id in w.registry.conns ==> Vouched(enc, w.history, w.registry.conns[id])
  }

  lemma StaysVouched(enc: Encoding, history: seq<LoadedConfig>, config: LoadedConfig, c: Connection)
    requires Vouched(enc, history, c)
    ensures Vouched(enc, history + [config], c)
  {
    var longer := history + [config];
    assert forall i :: 0 <= i < |history| ==> longer[i] == history[i];
    if c.current.Some? {
      var hostname :| Admitted(enc, history, c.current.value, hostname, c.token);
      assert Admitted(enc, longer, c.current.value, hostname, c.token);
    }
  }

  lemma HelloIsVouched(enc: Encoding, w: World, id: ConnectionId, hello: Hello)
    requires w.history != [] && AllVouched(enc, w) && Enabled(w, HelloReceived(id, hello))
    ensures AllVouched(enc, Step(enc, w, HelloReceived(id, hello)))
  {
    var c := w.registry.conns[id];
    assert Vouched(enc, w.history, c);
    CredentialIsPresented(enc, Active(w), hello.agentId, hello.hostname, c.token);
    if HasCredential(enc, Active(w), hello.agentId, hello.hostname, c.token) {
      assert Admitted(enc, w.history, hello.agentId, hello.hostname, c.token);
    }
  }

  lemma OthersAreVouched(enc: Encoding, w: World, e: Event)
    requires w.history != [] && AllVouched(enc, w) && Enabled(w, e)
    requires !e.HelloReceived? && !e.ConfigWritten?
    ensures AllVouched(enc, Step(enc, w, e))
  {
    var t := Step(enc, w, e);
    assert t.history == w.history;
    forall id | id in t.registry.conns
      ensures Vouched(enc, t.history, t.registry.conns[id])
    {
      if id in w.registry.conns {
        assert Vouched(enc, w.history, w.registry.conns[id]);
      }
    }
  }

  lemma StepIsVouched(enc: Encoding, w: World, e: Event)
    requires w.history != [] && AllVouched(enc, w)
    ensures AllVouched(enc, Step(enc, w, e))
  {
    if Enabled(w, e) {
      match e
      case HelloReceived(id, hello) => HelloIsVouched(enc, w, id, hello);
      case ConfigWritten(config) =>
        forall id | id in w.registry.conns
          ensures Vouched(enc, w.history + [config], w.registry.conns[id])
        {
          StaysVouched(enc, w.history, config, w.registry.conns[id]);
        }
      case _ => OthersAreVouched(enc, w, e);
    }
  }

  lemma {:induction false} RunIsVouched(enc: Encoding, w: World, events: seq<Event>)
    requires w.history != [] && AllVouched(enc, w)
    ensures AllVouched(enc, Run(enc, w, events))
    decreases |events|
  {
    if events != [] {
      StepIsVouched(enc, w, events[0]);
      RunIsVouched(enc, Step(enc, w, events[0]), events[1..]);
    }
  }

  /** Every registered agent's connection presented that agent's token, under a config that was active then. */
  lemma EveryAgentWasAdmitted(enc: Encoding, config: LoadedConfig, events: seq<Event>, a: AgentId)
    returns (i: nat, hostname: string)
    requires PassesValidation(config.file)
    ensures var w := Run(enc, Start(config), events);
            a in w.registry.agents ==>
              var id := w.registry.agents[a].connectionId;
              && BoundTo(w.registry, id, a) && i < |w.history|
              && Presents(enc, w.history[i].file, a, hostname, w.registry.conns[id].token)
  {
    StartOk(enc, config);
    RunKeeps(enc, Start(config), events);
    RunIsVouched(enc, Start(config), events);
    var w := Run(enc, Start(config), events);
    i, hostname := 0, "";
    if a in w.registry.agents {
      var c := w.registry.conns[w.registry.agents[a].connectionId];
      assert Vouched(enc, w.history, c);
      hostname :| Admitted(enc, w.history, a, hostname, c.token);
      i :| 0 <= i < |w.history| && Presents(enc, w.history[i].file, a, hostname, c.token);
    }
  }

  // ------------------------------------------------------------- who gets an ack

  /** An ack is only sent, under way or read on a connection that is, or was, bound to an agent. */
  predicate AckIsEarned(w: World, id: ConnectionId) {
    && (InTask(w, id, Acking) ==> w.registry.conns[id].current.Some?)
    && (Linked(w, id) ==>
          && id in w.registry.conns
          && (w.bus.links[id].acked || Delivery.HelloAck in w.bus.links[id].wire ==> w.registry.conns[id].current.Some?))
  }

  lemma FinishEarns(w: World, t: World, id: ConnectionId, who: Requester, answer: Option<Delivery.Answer<RuntimeConfig>>)
    requires AckIsEarned(w, id) && t.registry == w.registry && t.bus == w.bus
    ensures AckIsEarned(FinishFetch(t, who, answer), id)
  {
  }

  lemma RegistryStepEarns(enc: Encoding, w: World, id: ConnectionId, e: Event)
    requires w.history != [] && AckIsEarned(w, id) && Enabled(w, e)
    requires e.HelloReceived? || e.HelloRegistered? || e.HeartbeatReceived? || e.Left? || e.CleanedUp?
    ensures AckIsEarned(Step(enc, w, e), id)
  {
    assert Step(enc, w, e).bus == w.bus;
  }

  lemma BusStepEarns(enc: Encoding, w: World, id: ConnectionId, e: Event)
    requires w.history != [] && AckIsEarned(w, id) && Enabled(w, e)
    requires e.Opened? || e.AckSent? || e.NotificationReceived? || e.ConfigWritten? || e.ReloadAnnounced? || e.AgentRead?
    ensures AckIsEarned(Step(enc, w, e), id)
  {
  }

  lemma StepEarns(enc: Encoding, w: World, id: ConnectionId, e: Event)
    requires w.history != [] && AckIsEarned(w, id)
    ensures AckIsEarned(Step(enc, w, e), id)
  {
    if Enabled(w, e) {
      match e
      case LookedUp(who, agentId, session, token) => FinishEarns(w, w, id, who, None);
      case Answered(who) =>
        var reply := MakeReply(enc, w, w.lookups[who]);
        FinishEarns(w, w.(lookups := w.lookups - {who}, replies := w.replies + [reply]), id, who, AnswerOf(reply));
      case FetchLost(lost) =>
        FinishEarns(w, w.(lookups := w.lookups - {Websocket(lost)}), id, Websocket(lost), None);
      case _ =>
        if e.HelloReceived? || e.HelloRegistered? || e.HeartbeatReceived? || e.Left? || e.CleanedUp? {
          RegistryStepEarns(enc, w, id, e);
        } else {
          BusStepEarns(enc, w, id, e);
        }
    }
  }

  lemma {:induction false} RunEarns(enc: Encoding, w: World, id: ConnectionId, events: seq<Event>)
    requires w.history != [] && AckIsEarned(w, id)
    ensures AckIsEarned(Run(enc, w, events), id)
    decreases |events|
  {
    if events != [] {
      StepEarns(enc, w, id, events[0]);
      RunEarns(enc, Step(enc, w, events[0]), id, events[1..]);
    }
  }

  /** No connection is acknowledged without an admitted hello: the ack follows a binding, and so do fetches. */
  lemma EveryAckWasEarned(enc: Encoding, config: LoadedConfig, events: seq<Event>, id: ConnectionId)
    returns (a: AgentId, hostname: string)
    requires PassesValidation(config.file)
    ensures var w := Run(enc, Start(config), events);
            Linked(w, id) && w.bus.links[id].acked ==>
              id in w.registry.conns && Admitted(enc, w.history, a, hostname, w.registry.conns[id].token)
  {
    RunEarns(enc, Start(config), id, events);
    RunIsVouched(enc, Start(config), events);
    var w := Run(enc, Start(config), events);
    a, hostname := "", "";
    if Linked(w, id) && w.bus.links[id].acked {
      var c := w.registry.conns[id];
      assert Vouched(enc, w.history, c);
      a := c.current.value;
      hostname :| Admitted(enc, w.history, a, hostname, c.token);
    }
  }

  // -------------------------------------------------------- what the registry says

  /**
   The entry a connection should have, from its own events: its hello as registered, then its heartbeats for that
   agent, until it is cleaned up. A hello is turned down while another connection has the agent.
   */
  function EntryStep(w: World, entry: Option<ConnectedAgent>, e: Event, id: ConnectionId): Option<ConnectedAgent> {
    if !Enabled(w, e) then entry
    else
      match e
      case HelloRegistered(from, now) =>
        var hello := w.registry.conns[from].task.hello;
        if from != id || (hello.agentId in w.registry.agents && w.registry.agents[hello.agentId].connectionId != id) then entry
        else
          Some(ConnectedAgent(hello.agentId, hello.hostname, hello.agentVersion, hello.bootId, None, [], now, now, id))
      case HeartbeatReceived(from, beat, now) =>
        if from != id || entry.None? || entry.value.agentId != beat.agentId then entry
        else
          Some(ConnectedAgent(beat.agentId, beat.hostname, beat.agentVersion, entry.value.bootId,
                              Some(beat.configVersion), beat.enabledCollectors, entry.value.connectedAt, now, id))
      case CleanedUp(from) => if from == id then None else entry
      case _ => entry
  }

  function EntryRun(enc: Encoding, w: World, entry: Option<ConnectedAgent>, events: seq<Event>, id: ConnectionId): Option<ConnectedAgent>
    requires w.history != []
    decreases |events|
  {
    if events == [] then entry
    else EntryRun(enc, Step(enc, w, events[0]), EntryStep(w, entry, events[0], id), events[1..], id)
  }

  /** The connection has exactly that entry, or none. */
  ghost predicate HasEntry(agents: Agents, id: ConnectionId, entry: Option<ConnectedAgent>) {
    && (entry.Some? ==> entry.value.agentId in agents && agents[entry.value.agentId] == entry.value)
    && forall a :: Owns(agents, id, a) ==> entry == Some(agents[a])
  }

  lemma RegisterMakesEntry(w: World, entry: Option<ConnectedAgent>, from: ConnectionId, now: nat, id: ConnectionId)
    requires Bound(w.registry) && HasEntry(w.registry.agents, id, entry) && Enabled(w, HelloRegistered(from, now))
    requires entry.Some? ==> entry.value.connectionId == id
    ensures HasEntry(Register(w.registry, from, now).agents, id, EntryStep(w, entry, HelloRegistered(from, now), id))
  {
    if from == id {
      assert Alive(w.registry, id);
    }
  }

  lemma BeatMakesEntry(w: World, entry: Option<ConnectedAgent>, from: ConnectionId, beat: Heartbeat, now: nat, id: ConnectionId)
    requires Bound(w.registry) && HasEntry(w.registry.agents, id, entry) && Enabled(w, HeartbeatReceived(from, beat, now))
    requires entry.Some? ==> entry.value.connectionId == id
    ensures HasEntry(Beat(w.registry, from, beat, now).agents, id, EntryStep(w, entry, HeartbeatReceived(from, beat, now), id))
  {
    HeartbeatBranches(w.registry, from, beat);
    BindingIsExact(w.registry, from, beat.agentId);
  }

  lemma CleanupMakesEntry(w: World, entry: Option<ConnectedAgent>, from: ConnectionId, id: ConnectionId)
    requires Bound(w.registry) && HasEntry(w.registry.agents, id, entry) && Enabled(w, CleanedUp(from))
    requires entry.Some? ==> entry.value.connectionId == id
    ensures HasEntry(Cleanup(w.registry, from).agents, id, EntryStep(w, entry, CleanedUp(from), id))
  {
    if from == id && entry.Some? {
      BindingIsExact(w.registry, id, entry.value.agentId);
    }
  }

  lemma OthersKeepAgents(enc: Encoding, w: World, e: Event)
    requires w.history != [] && !e.HelloRegistered? && !e.HeartbeatReceived? && !e.CleanedUp?
    ensures Step(enc, w, e).registry.agents == w.registry.agents
  {
    if Enabled(w, e) && (e.LookedUp? || e.Answered? || e.FetchLost?) {
      assert Step(enc, w, e).registry == w.registry;
    }
  }

  lemma StepMakesEntry(enc: Encoding, w: World, entry: Option<ConnectedAgent>, e: Event, id: ConnectionId)
    requires w.history != [] && Bound(w.registry) && HasEntry(w.registry.agents, id, entry)
    requires entry.Some? ==> entry.value.connectionId == id
    ensures HasEntry(Step(enc, w, e).registry.agents, id, EntryStep(w, entry, e, id))
    ensures EntryStep(w, entry, e, id).Some? ==> EntryStep(w, entry, e, id).value.connectionId == id
  {
    if Enabled(w, e) {
      match e
      case HelloRegistered(from, now) => RegisterMakesEntry(w, entry, from, now, id);
      case HeartbeatReceived(from, beat, now) => BeatMakesEntry(w, entry, from, beat, now, id);
      case CleanedUp(from) => CleanupMakesEntry(w, entry, from, id);
      case _ => OthersKeepAgents(enc, w, e);
    }
  }

  lemma {:induction false} RunMakesEntry(enc: Encoding, w: World, entry: Option<ConnectedAgent>, events: seq<Event>, id: ConnectionId)
    requires Inv(enc, w) && HasEntry(w.registry.agents, id, entry)
    requires entry.Some? ==> entry.value.connectionId == id
    ensures HasEntry(Run(enc, w, events).registry.agents, id, EntryRun(enc, w, entry, events, id))
    decreases |events|
  {
    if events != [] {
      StepKeeps(enc, w, events[0]);
      StepMakesEntry(enc, w, entry, events[0], id);
      RunMakesEntry(enc, Step(enc, w, events[0]), EntryStep(w, entry, events[0], id), events[1..], id);
    }
  }

  /** In every run a connection's entry is exactly what its own hello and heartbeats make it, whatever others do. */
  lemma EntriesSayTheLastReport(enc: Encoding, config: LoadedConfig, events: seq<Event>, id: ConnectionId)
    requires PassesValidation(config.file)
    ensures HasEntry(Run(enc, Start(config), events).registry.agents, id, EntryRun(enc, Start(config), None, events, id))
  {
    StartOk(enc, config);
    RunMakesEntry(enc, Start(config), None, events, id);
  }
}
