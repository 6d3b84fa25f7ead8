/**
 The control plane as a whole: interleaved atomic steps of the connection tasks, config
 requests, admin reloads and connected agents, over one registry, one active config and one
 notification channel. Each event is one lock-held region or one message.
 */
module ControlPlane {
  import opened Common
  import opened RuntimeConfigs
  import opened Registry
  import Delivery

  datatype LoadedConfig = LoadedConfig(sourceVersion: string, file: ControlFile)

  /** Who waits for a config response: the websocket task of a connection, or anyone else. */
  datatype Requester = Websocket(id: ConnectionId) | Other(number: nat)

  /** A request between its lookup and its answer, with (audit) whether the session was bound to the requested agent then. */
  datatype Lookup = Lookup(
    requested: AgentId, agent: ConnectedAgent, session: ConnectionId, token: Option<string>, wasBound: bool)

  /**
   Audit of one answered request: the agent it asked for, the hostname of the entry found, the token it presented,
   and the load that was active when it was answered.
   */
  datatype Reply = Reply(
    agentId: AgentId, hostname: string, token: Option<string>, session: ConnectionId, wasBound: bool,
    load: nat, response: Response)

  /** `history` lists every config ever made active; its last element is the active one. */
  datatype World = World(
    history: seq<LoadedConfig>,
    registry: State,
    bus: Delivery.Bus<RuntimeConfig>,
    lookups: map<Requester, Lookup>,
    replies: seq<Reply>)

  datatype Event =
    | Opened(id: ConnectionId, token: Option<string>)
    | HelloReceived(id: ConnectionId, hello: Hello)
    | HelloRegistered(id: ConnectionId, now: nat)
    | AckSent(id: ConnectionId)
    | HeartbeatReceived(id: ConnectionId, beat: Heartbeat, now: nat)
    | NotificationReceived(id: ConnectionId)
    | Left(id: ConnectionId)
    | CleanedUp(id: ConnectionId)
    | ConfigWritten(config: LoadedConfig)
    | ReloadAnnounced(version: string)
    | AgentRead(id: ConnectionId)
    | LookedUp(who: Requester, agentId: AgentId, session: ConnectionId, token: Option<string>)
    | Answered(who: Requester)
    | FetchLost(id: ConnectionId)

  function Start(config: LoadedConfig): World {
    World([config], State(map[], map[]), Delivery.Bus(0, multiset{}, [], map[]), map[], [])
  }

  function Active(w: World): ControlFile
    requires w.history != []
  {
    w.history[|w.history| - 1].file
  }

  predicate InTask(w: World, id: ConnectionId, task: Task) {
    id in w.registry.conns && w.registry.conns[id].task == task
  }

  predicate Linked(w: World, id: ConnectionId) {
    id in w.bus.links
  }

  /** Whether the event can happen in this state; anything else leaves the state alone. */
  predicate Enabled(w: World, e: Event) {
    match e
    case Opened(id, _) => id !in w.registry.conns
    case HelloReceived(id, _) => InTask(w, id, Reading)
    case HelloRegistered(id, _) => id in w.registry.conns && w.registry.conns[id].task.Registering?
    case AckSent(id) => InTask(w, id, Acking) && Linked(w, id)
    case HeartbeatReceived(id, _, _) => InTask(w, id, Reading)
    case NotificationReceived(id) => InTask(w, id, Reading) && Linked(w, id)
    case Left(id) => InTask(w, id, Reading) || InTask(w, id, Acking)
    case CleanedUp(id) => InTask(w, id, Exiting)
    case ConfigWritten(config) => PassesValidation(config.file)
    case ReloadAnnounced(version) => version in w.bus.unannounced
    case AgentRead(id) => Linked(w, id) && w.bus.links[id].wire != [] && !w.bus.links[id].fetching
    case LookedUp(who, _, session, _) =>
      who !in w.lookups && (who.Websocket? ==> session == who.id && Linked(w, who.id) && w.bus.links[who.id].fetching)
    case Answered(who) => who in w.lookups
    case FetchLost(id) => Linked(w, id) && w.bus.links[id].fetching
  }

  function UpdateLink(w: World, id: ConnectionId, l: Delivery.Link<RuntimeConfig>): World {
    w.(bus := Delivery.SetLink(w.bus, id, l))
  }

  /** The websocket task of `who` learns how its fetch ended; other requesters are not tracked. */
  function FinishFetch(w: World, who: Requester, answer: Option<Delivery.Answer<RuntimeConfig>>): World {
    if who.Websocket? && Linked(w, who.id) && w.bus.links[who.id].fetching
    then UpdateLink(w, who.id, Delivery.FetchDone(w.bus.links[who.id], answer))
    else w
  }

  function AfterLookup(w: World, who: Requester, agentId: AgentId, session: ConnectionId, token: Option<string>): World {
    match FindForConfig(w.registry.agents, agentId, session)
    case None => FinishFetch(w, who, None)
    case Some(agent) =>
      w.(lookups := w.lookups[who := Lookup(agentId, agent, session, token, BoundTo(w.registry, session, agentId))])
  }

  function MakeReply(enc: Encoding, w: World, lookup: Lookup): Reply
    requires w.history != []
  {
    Reply(lookup.requested, lookup.agent.hostname, lookup.token, lookup.session, lookup.wasBound, |w.history| - 1,
          ServeConfig(enc, Active(w), lookup.agent, lookup.token))
  }

  function AnswerOf(r: Reply): Option<Delivery.Answer<RuntimeConfig>> {
    if r.response.Served? then Some(Delivery.Answer(r.load, r.response.runtime)) else None
  }

  function AfterAnswer(enc: Encoding, w: World, who: Requester): World
    requires w.history != [] && who in w.lookups
  {
    var reply := MakeReply(enc, w, w.lookups[who]);
    FinishFetch(w.(lookups := w.lookups - {who}, replies := w.replies + [reply]), who, AnswerOf(reply))
  }

  function Step(enc: Encoding, w: World, e: Event): (t: World)
    requires w.history != []
    ensures t.history != []
  {
    if !Enabled(w, e) then w
    else
      match e
      case Opened(id, token) => w.(registry := Open(w.registry, id, token), bus := Delivery.Subscribed(w.bus, id))
      case HelloReceived(id, hello) =>
        if HasCredential(enc, Active(w), hello.agentId, hello.hostname, w.registry.conns[id].token)
        then w.(registry := SetTask(w.registry, id, Registering(hello)))
        else w
      case HelloRegistered(id, now) => w.(registry := Register(w.registry, id, now))
      case AckSent(id) =>
        UpdateLink(w.(registry := SetTask(w.registry, id, Reading)), id, Delivery.Acknowledged(w.bus.links[id]))
      case HeartbeatReceived(id, beat, now) => w.(registry := Beat(w.registry, id, beat, now))
      case NotificationReceived(id) => UpdateLink(w, id, Delivery.Forwarded(w.bus.log, w.bus.links[id]))
      case Left(id) => w.(registry := SetTask(w.registry, id, Exiting))
      case CleanedUp(id) => w.(registry := Cleanup(w.registry, id))
      case ConfigWritten(config) =>
        w.(history := w.history + [config], bus := Delivery.Loaded(w.bus, config.sourceVersion))
      case ReloadAnnounced(version) => w.(bus := Delivery.Announced(w.bus, version))
      case AgentRead(id) => UpdateLink(w, id, Delivery.AgentRead(w.bus.links[id]))
      case LookedUp(who, agentId, session, token) => AfterLookup(w, who, agentId, session, token)
      case Answered(who) => AfterAnswer(enc, w, who)
      case FetchLost(id) =>
        FinishFetch(w.(lookups := w.lookups - {Websocket(id)}), Websocket(id), None)
  }

  function Run(enc: Encoding, w: World, events: seq<Event>): (t: World)
    requires w.history != []
    ensures t.history != []
    decreases |events|
  {
    if events == [] then w else Run(enc, Step(enc, w, events[0]), events[1..])
  }

  // --------------------------------------------------------------- invariant

  /** The entry found is the requested agent's, and the session was bound to that agent when looked up. */
  predicate LookupOk(lookup: Lookup) {
    lookup.wasBound && lookup.agent.agentId == lookup.requested
  }

  /** The session was bound to the agent when looked up, and the response is right for that agent and load. */
  ghost predicate ReplyOk(enc: Encoding, history: seq<LoadedConfig>, r: Reply) {
    && r.wasBound && r.load < |history|
    && ResponseOk(enc, history[r.load].file, r.agentId, r.hostname, r.token, r.response)
  }

  /** The answer held by a link is one of the recorded replies to that session. */
  ghost predicate AnswerRecorded(w: World, id: ConnectionId, a: Delivery.Answer<RuntimeConfig>) {
    exists i :: 0 <= i < |w.replies|
             && w.replies[i].session == id && w.replies[i].load == a.load && w.replies[i].response == Served(a.reply)
  }

  ghost predicate Inv(enc: Encoding, w: World) {
    && |w.history| == w.bus.loads + 1
    && (forall i :: 0 <= i < |w.history| ==> PassesValidation(w.history[i].file))
    && Bound(w.registry)
    && Delivery.BusOk(w.bus)
    && (forall who :: who in w.lookups ==> LookupOk(w.lookups[who]))
    && (forall who :: who in w.lookups && who.Websocket? ==> w.lookups[who].session == who.id)
    && (forall i :: 0 <= i < |w.replies| ==> ReplyOk(enc, w.history, w.replies[i]))
    && (forall id :: id in w.bus.links && w.bus.links[id].answer.Some? ==> AnswerRecorded(w, id, w.bus.links[id].answer.value))
  }

  lemma StartOk(enc: Encoding, config: LoadedConfig)
    requires PassesValidation(config.file)
    ensures Inv(enc, Start(config))
  {
  }

  /** Replacing one link by a sound one keeps the invariant. */
  lemma UpdateLinkKeeps(enc: Encoding, w: World, id: ConnectionId, l: Delivery.Link<RuntimeConfig>)
    requires Inv(enc, w) && Delivery.LinkOk(w.bus.log, l)
    requires l.answer.Some? ==> l.answer.value.load <= w.bus.loads && AnswerRecorded(w, id, l.answer.value)
    ensures Inv(enc, UpdateLink(w, id, l))
  {
    Delivery.SetLinkKeeps(w.bus, id, l);
    var t := UpdateLink(w, id, l);
    forall other | other in t.bus.links && t.bus.links[other].answer.Some?
      ensures AnswerRecorded(t, other, t.bus.links[other].answer.value)
    {
      assert AnswerRecorded(w, other, t.bus.links[other].answer.value);
    }
  }

  lemma RegistryKeeps(enc: Encoding, w: World, registry: State)
    requires Inv(enc, w) && Bound(registry)
    ensures Inv(enc, w.(registry := registry))
  {
    var t := w.(registry := registry);
    forall id | id in t.bus.links && t.bus.links[id].answer.Some?
      ensures AnswerRecorded(t, id, t.bus.links[id].answer.value)
    {
      assert AnswerRecorded(w, id, w.bus.links[id].answer.value);
    }
  }

  lemma BusKeeps(enc: Encoding, w: World, bus: Delivery.Bus<RuntimeConfig>)
    requires Inv(enc, w) && Delivery.BusOk(bus) && bus.loads == w.bus.loads
    requires forall id :: id in bus.links && bus.links[id].answer.Some? ==> id in w.bus.links && bus.links[id] == w.bus.links[id]
    ensures Inv(enc, w.(bus := bus))
  {
    var t := w.(bus := bus);
    forall id | id in t.bus.links && t.bus.links[id].answer.Some?
      ensures AnswerRecorded(t, id, t.bus.links[id].answer.value)
    {
      assert AnswerRecorded(w, id, w.bus.links[id].answer.value);
    }
  }

  lemma ConfigWrittenKeeps(enc: Encoding, w: World, config: LoadedConfig)
    requires Inv(enc, w) && PassesValidation(config.file)
    ensures Inv(enc, Step(enc, w, ConfigWritten(config)))
  {
    Delivery.LoadedKeeps(w.bus, config.sourceVersion);
    var t := Step(enc, w, ConfigWritten(config));
    forall i | 0 <= i < |t.replies|
      ensures ReplyOk(enc, t.history, t.replies[i])
    {
      assert ReplyOk(enc, w.history, w.replies[i]);
    }
    forall id | id in t.bus.links && t.bus.links[id].answer.Some?
      ensures AnswerRecorded(t, id, t.bus.links[id].answer.value)
    {
      assert AnswerRecorded(w, id, w.bus.links[id].answer.value);
    }
  }

  lemma FinishFetchKeeps(enc: Encoding, w: World, who: Requester, answer: Option<Delivery.Answer<RuntimeConfig>>)
    requires Inv(enc, w)
    requires answer.Some? ==> answer.value.load == w.bus.loads
    requires answer.Some? && who.Websocket? ==> AnswerRecorded(w, who.id, answer.value)
    ensures Inv(enc, FinishFetch(w, who, answer))
  {
    if who.Websocket? && Linked(w, who.id) && w.bus.links[who.id].fetching {
      var l := w.bus.links[who.id];
      if answer.Some? {
        Delivery.FetchDoneKeeps(w.bus, l, answer.value.reply);
      } else {
        assert Delivery.LinkOk(w.bus.log, Delivery.FetchDone(l, None));
      }
      UpdateLinkKeeps(enc, w, who.id, Delivery.FetchDone(l, answer));
    }
  }

  lemma LookupKeeps(enc: Encoding, w: World, who: Requester, agentId: AgentId, session: ConnectionId, token: Option<string>)
    requires Inv(enc, w) && (who.Websocket? ==> session == who.id)
    ensures Inv(enc, AfterLookup(w, who, agentId, session, token))
  {
    BindingIsExact(w.registry, session, agentId);
    var t := AfterLookup(w, who, agentId, session, token);
    if FindForConfig(w.registry.agents, agentId, session).None? {
      FinishFetchKeeps(enc, w, who, None);
    } else {
      forall id | id in t.bus.links && t.bus.links[id].answer.Some?
        ensures AnswerRecorded(t, id, t.bus.links[id].answer.value)
      {
        assert AnswerRecorded(w, id, w.bus.links[id].answer.value);
      }
    }
  }

  lemma ReplyOkFrom(enc: Encoding, history: seq<LoadedConfig>, r: Reply, file: ControlFile)
    requires r.wasBound && r.load < |history| && history[r.load].file == file
    requires ResponseOk(enc, file, r.agentId, r.hostname, r.token, r.response)
    ensures ReplyOk(enc, history, r)
  {
  }

  lemma ReplyMade(enc: Encoding, w: World, file: ControlFile, lookup: Lookup, response: Response)
    requires w.history != [] && Active(w) == file
    requires ServeConfig(enc, file, lookup.agent, lookup.token) == response
    ensures MakeReply(enc, w, lookup)
         == Reply(lookup.requested, lookup.agent.hostname, lookup.token, lookup.session, lookup.wasBound,
                  |w.history| - 1, response)
  {
  }

  lemma ReplyIsOk(enc: Encoding, w: World, file: ControlFile, lookup: Lookup, response: Response)
    requires w.history != [] && Active(w) == file && LookupOk(lookup)
    requires ServeConfig(enc, file, lookup.agent, lookup.token) == response
    requires ResponseOk(enc, file, lookup.requested, lookup.agent.hostname, lookup.token, response)
    ensures ReplyOk(enc, w.history, MakeReply(enc, w, lookup))
  {
    var reply := MakeReply(enc, w, lookup);
    ReplyMade(enc, w, file, lookup, response);
    ReplyOkFrom(enc, w.history, reply, file);
  }

  lemma ReplyIsSound(enc: Encoding, w: World, file: ControlFile, lookup: Lookup)
    requires w.history != [] && Active(w) == file && PassesValidation(file) && LookupOk(lookup)
    ensures ReplyOk(enc, w.history, MakeReply(enc, w, lookup))
  {
    ServeConfigIsOk(enc, file, lookup.agent, lookup.token);
    ReplyIsOk(enc, w, file, lookup, ServeConfig(enc, file, lookup.agent, lookup.token));
  }

  lemma AnswerStaysRecorded(w: World, t: World, id: ConnectionId, a: Delivery.Answer<RuntimeConfig>)
    requires w.replies <= t.replies && AnswerRecorded(w, id, a)
    ensures AnswerRecorded(t, id, a)
  {
    var i :| 0 <= i < |w.replies|
          && w.replies[i].session == id && w.replies[i].load == a.load && w.replies[i].response == Served(a.reply);
    assert t.replies[i] == w.replies[i];
  }

  /** Recording a sound reply and closing its lookup keeps the invariant. */
  lemma RecordKeeps(enc: Encoding, w: World, who: Requester, reply: Reply)
    requires Inv(enc, w) && ReplyOk(enc, w.history, reply)
    ensures Inv(enc, w.(lookups := w.lookups - {who}, replies := w.replies + [reply]))
  {
    var t := w.(lookups := w.lookups - {who}, replies := w.replies + [reply]);
    forall id | id in t.bus.links && t.bus.links[id].answer.Some?
      ensures AnswerRecorded(t, id, t.bus.links[id].answer.value)
    {
      AnswerStaysRecorded(w, t, id, w.bus.links[id].answer.value);
    }
    forall i | 0 <= i < |t.replies|
      ensures ReplyOk(enc, t.history, t.replies[i])
    {
      if i < |w.replies| {
        assert t.replies[i] == w.replies[i];
      }
    }
  }

  lemma AnswerKeeps(enc: Encoding, w: World, who: Requester)
    requires Inv(enc, w) && who in w.lookups
    ensures Inv(enc, AfterAnswer(enc, w, who))
  {
    var reply := MakeReply(enc, w, w.lookups[who]);
    ReplyIsSound(enc, w, Active(w), w.lookups[who]);
    RecordKeeps(enc, w, who, reply);
    var done := w.(lookups := w.lookups - {who}, replies := w.replies + [reply]);
    assert done.replies[|w.replies|] == reply;
    FinishFetchKeeps(enc, done, who, AnswerOf(reply));
  }

  lemma OpenedKeeps(enc: Encoding, w: World, id: ConnectionId, token: Option<string>)
    requires Inv(enc, w) && Enabled(w, Opened(id, token))
    ensures Inv(enc, Step(enc, w, Opened(id, token)))
  {
    OpenKeepsBound(w.registry, id, token);
    Delivery.SubscribedKeeps(w.bus, id);
    RegistryKeeps(enc, w, Open(w.registry, id, token));
    BusKeeps(enc, w.(registry := Open(w.registry, id, token)), Delivery.Subscribed(w.bus, id));
  }

  lemma AckSentKeeps(enc: Encoding, w: World, id: ConnectionId)
    requires Inv(enc, w) && Enabled(w, AckSent(id))
    ensures Inv(enc, Step(enc, w, AckSent(id)))
  {
    SetTaskKeepsBound(w.registry, id, Reading);
    RegistryKeeps(enc, w, SetTask(w.registry, id, Reading));
    Delivery.AcknowledgedKeeps(w.bus.log, w.bus.links[id]);
    KeepLink(enc, w.(registry := SetTask(w.registry, id, Reading)), id, Delivery.Acknowledged(w.bus.links[id]));
  }

  lemma FetchLostKeeps(enc: Encoding, w: World, id: ConnectionId)
    requires Inv(enc, w) && Enabled(w, FetchLost(id))
    ensures Inv(enc, Step(enc, w, FetchLost(id)))
  {
    var t := w.(lookups := w.lookups - {Websocket(id)});
    LookupsShrink(enc, w, t);
    FinishFetchKeeps(enc, t, Websocket(id), None);
  }

  /** Steps of a connection's server task that touch the registry only. */
  lemma RegistryStepKeeps(enc: Encoding, w: World, e: Event)
    requires Inv(enc, w) && Enabled(w, e)
    requires e.HelloReceived? || e.HelloRegistered? || e.HeartbeatReceived? || e.Left? || e.CleanedUp?
    ensures Inv(enc, Step(enc, w, e))
  {
    match e
    case HelloReceived(id, hello) =>
      SetTaskKeepsBound(w.registry, id, Registering(hello));
      RegistryKeeps(enc, w, SetTask(w.registry, id, Registering(hello)));
    case HelloRegistered(id, now) =>
      RegisterKeepsBound(w.registry, id, now);
      RegistryKeeps(enc, w, Register(w.registry, id, now));
    case HeartbeatReceived(id, beat, now) =>
      BeatKeepsBound(w.registry, id, beat, now);
      RegistryKeeps(enc, w, Beat(w.registry, id, beat, now));
    case Left(id) =>
      SetTaskKeepsBound(w.registry, id, Exiting);
      RegistryKeeps(enc, w, SetTask(w.registry, id, Exiting));
    case CleanedUp(id) =>
      CleanupKeepsBound(w.registry, id);
      RegistryKeeps(enc, w, Cleanup(w.registry, id));
  }

  /** Steps of the notification channel and of the agents reading from it. */
  lemma BusStepKeeps(enc: Encoding, w: World, e: Event)
    requires Inv(enc, w) && Enabled(w, e)
    requires e.NotificationReceived? || e.ReloadAnnounced? || e.AgentRead?
    ensures Inv(enc, Step(enc, w, e))
  {
    match e
    case NotificationReceived(id) =>
      Delivery.ForwardedKeeps(w.bus.log, w.bus.links[id]);
      KeepLink(enc, w, id, Delivery.Forwarded(w.bus.log, w.bus.links[id]));
    case ReloadAnnounced(version) =>
      Delivery.AnnouncedKeeps(w.bus, version);
      BusKeeps(enc, w, Delivery.Announced(w.bus, version));
    case AgentRead(id) =>
      Delivery.AgentReadKeeps(w.bus.log, w.bus.links[id]);
      KeepLink(enc, w, id, Delivery.AgentRead(w.bus.links[id]));
  }

  lemma StepKeeps(enc: Encoding, w: World, e: Event)
    requires Inv(enc, w)
    ensures Inv(enc, Step(enc, w, e))
  {
    if Enabled(w, e) {
      match e
      case Opened(id, token) => OpenedKeeps(enc, w, id, token);
      case AckSent(id) => AckSentKeeps(enc, w, id);
      case ConfigWritten(config) => ConfigWrittenKeeps(enc, w, config);
      case LookedUp(who, agentId, session, token) => LookupKeeps(enc, w, who, agentId, session, token);
      case Answered(who) => AnswerKeeps(enc, w, who);
      case FetchLost(id) => FetchLostKeeps(enc, w, id);
      case _ =>
        if e.NotificationReceived? || e.ReloadAnnounced? || e.AgentRead? {
          BusStepKeeps(enc, w, e);
        } else {
          RegistryStepKeeps(enc, w, e);
        }
    }
  }

  lemma KeepLink(enc: Encoding, w: World, id: ConnectionId, l: Delivery.Link<RuntimeConfig>)
    requires Inv(enc, w) && Linked(w, id) && Delivery.LinkOk(w.bus.log, l)
    requires l.answer.Some? ==> l.answer == w.bus.links[id].answer
    ensures Inv(enc, UpdateLink(w, id, l))
  {
    if l.answer.Some? {
      assert AnswerRecorded(w, id, w.bus.links[id].answer.value);
    }
    UpdateLinkKeeps(enc, w, id, l);
  }

  lemma LookupsShrink(enc: Encoding, w: World, t: World)
    requires Inv(enc, w) && t == w.(lookups := t.lookups)
    requires forall who :: who in t.lookups ==> who in w.lookups && t.lookups[who] == w.lookups[who]
    ensures Inv(enc, t)
  {
    forall id | id in t.bus.links && t.bus.links[id].answer.Some?
      ensures AnswerRecorded(t, id, t.bus.links[id].answer.value)
    {
      assert AnswerRecorded(w, id, w.bus.links[id].answer.value);
    }
  }

  lemma {:induction false} RunKeeps(enc: Encoding, w: World, events: seq<Event>)
    requires Inv(enc, w)
    ensures Inv(enc, Run(enc, w, events))
    decreases |events|
  {
    if events != [] {
      StepKeeps(enc, w, events[0]);
      RunKeeps(enc, Step(enc, w, events[0]), events[1..]);
    }
  }

  // ------------------------------------------------------------ main results

  /** Exact binding in every reachable state, and no heartbeat ever meets a stale or unknown entry. */
  lemma ReachableBindingIsExact(enc: Encoding, config: LoadedConfig, events: seq<Event>, id: ConnectionId, a: AgentId)
    requires PassesValidation(config.file)
    ensures var s := Run(enc, Start(config), events).registry;
            && (Owns(s.agents, id, a) <==> BoundTo(s, id, a))
            && (forall b :: Owns(s.agents, id, a) && Owns(s.agents, id, b) ==> a == b)
            && (!Alive(s, id) ==> !Owns(s.agents, id, a))
            && (forall beat :: Alive(s, id) ==>
                  HeartbeatOutcomeOf(s.agents, id, s.conns[id].current, beat)
                  == if BoundTo(s, id, beat.agentId) then Applied else Unbound)
  {
    StartOk(enc, config);
    RunKeeps(enc, Start(config), events);
    var s := Run(enc, Start(config), events).registry;
    BindingIsExact(s, id, a);
    forall beat | Alive(s, id)
      ensures HeartbeatOutcomeOf(s.agents, id, s.conns[id].current, beat)
           == if BoundTo(s, id, beat.agentId) then Applied else Unbound
    {
      HeartbeatBranches(s, id, beat);
    }
  }

  /**
   Every response of every run: the session was bound to the agent when it was looked up, a served
   config is the one its active file gives the enrolled hostname, and an invalid-config error needs
   a file whose block for the empty hostname hides broken defaults.
   */
  lemma ReachableRepliesAreSound(enc: Encoding, config: LoadedConfig, events: seq<Event>, i: nat)
    requires PassesValidation(config.file)
    requires i < |Run(enc, Start(config), events).replies|
    ensures ReplyOk(enc, Run(enc, Start(config), events).history, Run(enc, Start(config), events).replies[i])
  {
    StartOk(enc, config);
    RunKeeps(enc, Start(config), events);
  }

  /** Once a connection was cleaned up, its session id opens nothing, whatever happens later. */
  lemma {:induction false} CleanedUpSessionNeverFound(enc: Encoding, w: World, events: seq<Event>, id: ConnectionId, a: AgentId)
    requires Inv(enc, w) && InTask(w, id, Gone)
    ensures InTask(Run(enc, w, events), id, Gone)
    ensures FindForConfig(Run(enc, w, events).registry.agents, a, id) == None
    decreases |events|
  {
    if events == [] {
      BindingIsExact(w.registry, id, a);
    } else {
      StepKeeps(enc, w, events[0]);
      GoneStays(enc, w, events[0], id);
      CleanedUpSessionNeverFound(enc, Step(enc, w, events[0]), events[1..], id, a);
    }
  }

  lemma GoneStays(enc: Encoding, w: World, e: Event, id: ConnectionId)
    requires Inv(enc, w) && InTask(w, id, Gone)
    ensures InTask(Step(enc, w, e), id, Gone)
  {
    if e.LookedUp? || e.Answered? || e.FetchLost? {
      assert Step(enc, w, e).registry == w.registry;
    }
  }

  /**
   No lost update. When every written config has been announced, an acknowledged connection that has
   drained its notifications and whose last websocket-triggered fetch succeeded holds exactly what the
   newest config gives the hostname it enrols for that agent.
   */
  lemma NoLostUpdate(enc: Encoding, config: LoadedConfig, events: seq<Event>, id: ConnectionId) returns (i: nat)
    requires PassesValidation(config.file)
    requires var w := Run(enc, Start(config), events);
             w.bus.unannounced == multiset{} && Settled(w, id)
    ensures var w := Run(enc, Start(config), events);
            && i < |w.replies| && w.replies[i].session == id && w.replies[i].wasBound
            && AnswerOf(w.replies[i]) == w.bus.links[id].answer
            && w.replies[i].load == |w.history| - 1
            && AnswerFor(enc, Active(w), w.replies[i].agentId, w.bus.links[id].answer.value.reply)
  {
    StartOk(enc, config);
    RunKeeps(enc, Start(config), events);
    i := SettledAnswer(enc, Run(enc, Start(config), events), id);
  }

  /** In every run a settled connection lags by no more loads than are written but not yet broadcast. */
  lemma StalenessIsBounded(enc: Encoding, config: LoadedConfig, events: seq<Event>, id: ConnectionId)
    requires PassesValidation(config.file)
    requires Settled(Run(enc, Start(config), events), id)
    ensures var w := Run(enc, Start(config), events);
            |w.history| - 1 - |w.bus.unannounced| <= w.bus.links[id].answer.value.load <= |w.history| - 1
  {
    StartOk(enc, config);
    RunKeeps(enc, Start(config), events);
    Delivery.DrainedAnswerIsRecent(Run(enc, Start(config), events).bus, id);
  }

  /** Acknowledged, drained, and the last websocket-triggered fetch succeeded. */
  predicate Settled(w: World, id: ConnectionId) {
    Delivery.Drained(w.bus, id) && w.bus.links[id].acked && w.bus.links[id].answer.Some?
  }

  lemma SettledAnswer(enc: Encoding, w: World, id: ConnectionId) returns (i: nat)
    requires Inv(enc, w) && w.bus.unannounced == multiset{} && Settled(w, id)
    ensures i < |w.replies| && w.replies[i].session == id && w.replies[i].wasBound
    ensures AnswerOf(w.replies[i]) == w.bus.links[id].answer
    ensures w.replies[i].load == |w.history| - 1
    ensures AnswerFor(enc, Active(w), w.replies[i].agentId, w.bus.links[id].answer.value.reply)
  {
    Delivery.DrainedAnswerIsNewest(w.bus, id);
    var a := w.bus.links[id].answer.value;
    assert AnswerRecorded(w, id, a);
    i :| 0 <= i < |w.replies|
      && w.replies[i].session == id && w.replies[i].load == a.load && w.replies[i].response == Served(a.reply);
    assert ReplyOk(enc, w.history, w.replies[i]);
  }

  // ------------------------------------------------- a reachable stale session

  lemma {:induction false} RunConcat(enc: Encoding, w: World, early: seq<Event>, late: seq<Event>)
    requires w.history != []
    ensures Run(enc, w, early + late) == Run(enc, Run(enc, w, early), late)
    decreases |early|
  {
    if early == [] {
      assert early + late == late;
    } else {
      assert (early + late)[1..] == early[1..] + late;
      RunConcat(enc, Step(enc, w, early[0]), early[1..], late);
    }
  }

  lemma RunTwo(enc: Encoding, w: World, e1: Event, e2: Event)
    requires w.history != []
    ensures Run(enc, w, [e1, e2]) == Step(enc, Step(enc, w, e1), e2)
  {
    var v := Step(enc, w, e1);
    assert [e1, e2][1..] == [e2] && [e2][1..] == [];
    assert Run(enc, v, [e2]) == Run(enc, Step(enc, v, e2), []);
  }

  /** One connected and acknowledged agent, its link as given. */
  function OneAgent(
    config: LoadedConfig, id: ConnectionId, token: string, hello: Hello, l: Delivery.Link<RuntimeConfig>): World
  {
    World([config],
          State(map[hello.agentId := NewAgent(id, hello, 0)],
                map[id := Connection(Some(token), Some(hello.agentId), Reading)]),
          Delivery.Bus(0, multiset{}, [], map[id := l]), map[], [])
  }

  /** The hello was authorized and waits for the registry. */
  function Greeted(config: LoadedConfig, id: ConnectionId, token: string, hello: Hello): World {
    Start(config).(
      registry := State(map[], map[id := Connection(Some(token), None, Registering(hello))]),
      bus := Delivery.Subscribed(Start(config).bus, id))
  }

  /** The acknowledged agent asked for its config and was found. */
  function Asked(config: LoadedConfig, id: ConnectionId, token: string, hello: Hello): World {
    OneAgent(config, id, token, hello, Delivery.Link(0, 0, [], 0, true, true, None)).(
      lookups := map[Websocket(id) := Lookup(hello.agentId, NewAgent(id, hello, 0), id, Some(token), true)])
  }

  /** It was answered. */
  function Fetched(
    config: LoadedConfig, id: ConnectionId, token: string, hello: Hello, runtime: RuntimeConfig): World
  {
    OneAgent(config, id, token, hello, Delivery.Link(0, 0, [], 0, true, false, Some(Delivery.Answer(0, runtime)))).(
      replies := [Reply(hello.agentId, hello.hostname, Some(token), id, true, 0, Served(runtime))])
  }

  lemma HelloArrives(enc: Encoding, config: LoadedConfig, id: ConnectionId, token: string, hello: Hello)
    requires HasCredential(enc, config.file, hello.agentId, hello.hostname, Some(token))
    ensures Run(enc, Start(config), [Opened(id, Some(token)), HelloReceived(id, hello)])
         == Greeted(config, id, token, hello)
  {
    RunTwo(enc, Start(config), Opened(id, Some(token)), HelloReceived(id, hello));
  }

  lemma HelloIsAcknowledged(enc: Encoding, config: LoadedConfig, id: ConnectionId, token: string, hello: Hello)
    ensures Run(enc, Greeted(config, id, token, hello), [HelloRegistered(id, 0), AckSent(id)])
         == OneAgent(config, id, token, hello, Delivery.Link(0, 0, [Delivery.HelloAck], 0, false, false, None))
  {
    var w := Greeted(config, id, token, hello);
    RunTwo(enc, w, HelloRegistered(id, 0), AckSent(id));
    var v := Step(enc, w, HelloRegistered(id, 0));
    assert v.registry == State(map[hello.agentId := NewAgent(id, hello, 0)],
                               map[id := Connection(Some(token), Some(hello.agentId), Acking)]);
    assert [] + [Delivery.HelloAck] == [Delivery.HelloAck];
  }

  lemma AckIsRead(enc: Encoding, config: LoadedConfig, id: ConnectionId, token: string, hello: Hello)
    ensures Run(enc, OneAgent(config, id, token, hello, Delivery.Link(0, 0, [Delivery.HelloAck], 0, false, false, None)),
                [AgentRead(id), LookedUp(Websocket(id), hello.agentId, id, Some(token))])
         == Asked(config, id, token, hello)
  {
    var w := OneAgent(config, id, token, hello, Delivery.Link(0, 0, [Delivery.HelloAck], 0, false, false, None));
    RunTwo(enc, w, AgentRead(id), LookedUp(Websocket(id), hello.agentId, id, Some(token)));
    assert [Delivery.HelloAck][1..] == [];
    assert Step(enc, w, AgentRead(id))
        == OneAgent(config, id, token, hello, Delivery.Link(0, 0, [], 0, true, true, None));
  }

  lemma AgentIsServed(
    enc: Encoding, config: LoadedConfig, id: ConnectionId, token: string, hello: Hello, runtime: RuntimeConfig)
    requires HasCredential(enc, config.file, hello.agentId, hello.hostname, Some(token))
    requires RuntimeConfigFor(enc, config.file, hello.hostname) == Ok(runtime)
    ensures ServeConfig(enc, config.file, NewAgent(id, hello, 0), Some(token)) == Served(runtime)
  {
  }

  lemma AnswerIsDelivered(config: LoadedConfig, id: ConnectionId, token: string, hello: Hello, runtime: RuntimeConfig)
    ensures var w := Asked(config, id, token, hello);
            var reply := Reply(hello.agentId, hello.hostname, Some(token), id, true, 0, Served(runtime));
            FinishFetch(w.(lookups := w.lookups - {Websocket(id)}, replies := w.replies + [reply]), Websocket(id), AnswerOf(reply))
            == Fetched(config, id, token, hello, runtime)
  {
    var w := Asked(config, id, token, hello);
    var l := Delivery.Link(0, 0, [], 0, true, false, Some(Delivery.Answer(0, runtime)));
    assert w.lookups - {Websocket(id)} == map[];
    assert w.bus.links[id := l] == map[id := l];
  }

  /** Answering a request whose reply is known. */
  lemma AnswerIs(enc: Encoding, w: World, who: Requester, reply: Reply)
    requires w.history != [] && who in w.lookups && MakeReply(enc, w, w.lookups[who]) == reply
    ensures Step(enc, w, Answered(who))
         == FinishFetch(w.(lookups := w.lookups - {who}, replies := w.replies + [reply]), who, AnswerOf(reply))
  {
    assert Step(enc, w, Answered(who)) == AfterAnswer(enc, w, who);
  }

  lemma FetchIsAnswered(
    enc: Encoding, w: World, config: LoadedConfig, id: ConnectionId, token: string, hello: Hello, runtime: RuntimeConfig)
    requires w == Asked(config, id, token, hello)
    requires ServeConfig(enc, config.file, NewAgent(id, hello, 0), Some(token)) == Served(runtime)
    ensures Step(enc, w, Answered(Websocket(id))) == Fetched(config, id, token, hello, runtime)
  {
    var done := Step(enc, w, Answered(Websocket(id)));
    assert done == Fetched(config, id, token, hello, runtime) by {
      ReplyMade(enc, w, config.file, w.lookups[Websocket(id)], Served(runtime));
      AnswerIs(enc, w, Websocket(id), Reply(hello.agentId, hello.hostname, Some(token), id, true, 0, Served(runtime)));
      AnswerIsDelivered(config, id, token, hello, runtime);
    }
  }

  /** The connection's task reads messages, `agent` is its entry, and no request of it is open. */
  predicate Serving(w: World, id: ConnectionId, agent: ConnectedAgent) {
    && InTask(w, id, Reading) && Websocket(id) !in w.lookups
    && Owns(w.registry.agents, id, agent.agentId) && w.registry.agents[agent.agentId] == agent
    && w.bus.loads == |w.history| - 1
  }

  lemma ReloadIsWritten(
    enc: Encoding, config: LoadedConfig, next: LoadedConfig, id: ConnectionId, token: string, hello: Hello,
    runtime: RuntimeConfig)
    requires PassesValidation(next.file)
    ensures var w := Step(enc, Fetched(config, id, token, hello, runtime), ConfigWritten(next));
            && Settled(w, id) && w.bus.unannounced == multiset{next.sourceVersion}
            && w.history == [config, next]
            && w.bus.links[id].answer == Some(Delivery.Answer(0, runtime))
            && Serving(w, id, NewAgent(id, hello, 0))
  {
    assert [config] + [next] == [config, next];
  }

  /**
   The proviso of `NoLostUpdate` is needed in a reachable state: for any enrolled agent and any next config,
   a run that connects, acknowledges and serves the agent and then writes the next config leaves it settled
   on the old one, with one version written but not broadcast.
   */
  lemma StaleUntilAnnounced(
    enc: Encoding, config: LoadedConfig, next: LoadedConfig, id: ConnectionId, token: string, hello: Hello,
    runtime: RuntimeConfig) returns (events: seq<Event>)
    requires PassesValidation(next.file)
    requires HasCredential(enc, config.file, hello.agentId, hello.hostname, Some(token))
    requires RuntimeConfigFor(enc, config.file, hello.hostname) == Ok(runtime)
    ensures var w := Run(enc, Start(config), events);
            && Settled(w, id) && w.bus.unannounced == multiset{next.sourceVersion}
            && w.history == [config, next]
            && w.bus.links[id].answer == Some(Delivery.Answer(0, runtime))
            && Serving(w, id, NewAgent(id, hello, 0))
  {
    var connect := [Opened(id, Some(token)), HelloReceived(id, hello)];
    var acknowledge := [HelloRegistered(id, 0), AckSent(id)];
    var fetch := [AgentRead(id), LookedUp(Websocket(id), hello.agentId, id, Some(token))];
    var reload := [Answered(Websocket(id)), ConfigWritten(next)];
    events := connect + acknowledge + fetch + reload;
    RunConcat(enc, Start(config), connect + acknowledge + fetch, reload);
    RunConcat(enc, Start(config), connect + acknowledge, fetch);
    RunConcat(enc, Start(config), connect, acknowledge);
    HelloArrives(enc, config, id, token, hello);
    HelloIsAcknowledged(enc, config, id, token, hello);
    AckIsRead(enc, config, id, token, hello);
    RunTwo(enc, Asked(config, id, token, hello), Answered(Websocket(id)), ConfigWritten(next));
    AgentIsServed(enc, config, id, token, hello, runtime);
    FetchIsAnswered(enc, Asked(config, id, token, hello), config, id, token, hello, runtime);
    ReloadIsWritten(enc, config, next, id, token, hello, runtime);
  }
}
