/**
 What becomes of a notification at the agent: in every run each one it reads after its ack starts a fetch,
 and that fetch is under way until it ends in one of three ways; and a run in which a reload arrives.

 The audit of a connection is kept from the events alone and what they meet, never from the fetch itself.
 */
module FetchAudit {
  import opened Common
  import opened RuntimeConfigs
  import opened Registry
  import opened ControlPlane
  import Delivery

  /** How a fetch ended: it was lost, no session bound to the agent was found, or it was answered. */
  datatype Ending = Lost | NotFound | Replied(reply: Reply)

  /** How many notices the agent had read when its last fetch was due, and how that fetch ended. */
  datatype Watch = Watch(dueAt: Option<nat>, ended: Option<Ending>)

  const NO_FETCH := Watch(None, None)

  predicate Fetching(w: World, id: ConnectionId) {
    Linked(w, id) && w.bus.links[id].fetching
  }

  /** The agent reads its ack, or a notification after its ack. */
  predicate FetchIsDue(w: World, id: ConnectionId)
    requires Enabled(w, AgentRead(id))
  {
    w.bus.links[id].acked || w.bus.links[id].wire[0].HelloAck?
  }

  function WatchStep(w: World, watch: Watch, e: Event, after: World, id: ConnectionId): Watch {
    if !Enabled(w, e) then watch
    else
      match e
      case AgentRead(reader) =>
        if reader == id && FetchIsDue(w, id) && Linked(after, id) then Watch(Some(after.bus.links[id].handled), None) else watch
      case FetchLost(lost) => if lost == id then watch.(ended := Some(Lost)) else watch
      case LookedUp(who, agentId, _, _) =>
        if who == Websocket(id) && !BoundTo(w.registry, id, agentId) then watch.(ended := Some(NotFound)) else watch
      case Answered(who) =>
        if who == Websocket(id) && after.replies != []
        then watch.(ended := Some(Replied(after.replies[|after.replies| - 1])))
        else watch
      case _ => watch
  }

  function WatchRun(enc: Encoding, w: World, watch: Watch, events: seq<Event>, id: ConnectionId): Watch
    requires w.history != []
    decreases |events|
  {
    if events == [] then watch
    else
      var next := Step(enc, w, events[0]);
      WatchRun(enc, next, WatchStep(w, watch, events[0], next, id), events[1..], id)
  }

  /** What a fetch served from that load brings. */
  function Brought(load: nat, response: Response): Option<Delivery.Answer<RuntimeConfig>> {
    match response
    case Served(runtime) => Some(Delivery.Answer(load, runtime))
    case _ => None
  }

  /** What the link holds once its fetch has ended that way. */
  predicate EndedIn(ending: Ending, id: ConnectionId, answer: Option<Delivery.Answer<RuntimeConfig>>) {
    match ending
    case Lost => answer == None
    case NotFound => answer == None
    case Replied(reply) => reply.session == id && answer == Brought(reply.load, reply.response)
  }

  /**
   Before the ack nothing is fetched. From then on the last fetch began when the newest notice was read (or at
   the ack, if none was since), and it is under way exactly until it has ended.
   */
  predicate NoticeIsFetched(l: Delivery.Link<RuntimeConfig>, watch: Watch, id: ConnectionId) {
    if !l.acked then watch == NO_FETCH && !l.fetching && l.answer == None
    else
      && watch.dueAt == Some(l.handled)
      && (l.fetching <==> watch.ended == None)
      && match watch.ended
         case None => l.answer == None
         case Some(ending) => EndedIn(ending, id, l.answer)
  }

  /** Only opened connections have links, every link keeps up with its notices, and only a fetch has a request open. */
  predicate Watched(w: World, watch: Watch, id: ConnectionId) {
    && (if Linked(w, id) then id in w.registry.conns && NoticeIsFetched(w.bus.links[id], watch, id) else watch == NO_FETCH)
    && (Websocket(id) in w.lookups ==> Fetching(w, id))
  }

  lemma FinishIsWatched(w: World, before: Watch, after: Watch, who: Requester, id: ConnectionId,
                        answer: Option<Delivery.Answer<RuntimeConfig>>)
    requires Linked(w, id) ==> id in w.registry.conns && NoticeIsFetched(w.bus.links[id], before, id)
    requires !Linked(w, id) ==> before == NO_FETCH
    requires who != Websocket(id) && Websocket(id) in w.lookups ==> Fetching(w, id)
    requires who == Websocket(id) ==> Websocket(id) !in w.lookups && Fetching(w, id)
    requires who == Websocket(id) ==>
               after.dueAt == before.dueAt && after.ended.Some? && EndedIn(after.ended.value, id, answer)
    requires who != Websocket(id) ==> after == before
    ensures Watched(FinishFetch(w, who, answer), after, id)
  {
  }

  lemma LookupIsWatched(enc: Encoding, w: World, watch: Watch, id: ConnectionId, who: Requester, agentId: AgentId,
                        session: ConnectionId, token: Option<string>)
    requires Inv(enc, w) && Watched(w, watch, id) && Enabled(w, LookedUp(who, agentId, session, token))
    ensures var t := AfterLookup(w, who, agentId, session, token);
            Watched(t, WatchStep(w, watch, LookedUp(who, agentId, session, token), t, id), id)
  {
    BindingIsExact(w.registry, session, agentId);
    if FindForConfig(w.registry.agents, agentId, session).None? {
      var t := AfterLookup(w, who, agentId, session, token);
      FinishIsWatched(w, watch, WatchStep(w, watch, LookedUp(who, agentId, session, token), t, id), who, id, None);
    }
  }

  lemma ReplyIsWatched(w: World, watch: Watch, id: ConnectionId, who: Requester, reply: Reply)
    requires Watched(w, watch, id) && who in w.lookups
    requires who.Websocket? ==> reply.session == who.id
    ensures var t := FinishFetch(w.(lookups := w.lookups - {who}, replies := w.replies + [reply]), who, AnswerOf(reply));
            Watched(t, WatchStep(w, watch, Answered(who), t, id), id)
  {
    var done := w.(lookups := w.lookups - {who}, replies := w.replies + [reply]);
    var t := FinishFetch(done, who, AnswerOf(reply));
    assert t.replies[|t.replies| - 1] == reply;
    FinishIsWatched(done, watch, WatchStep(w, watch, Answered(who), t, id), who, id, AnswerOf(reply));
  }

  lemma AnswerIsWatched(enc: Encoding, w: World, watch: Watch, id: ConnectionId, who: Requester)
    requires Inv(enc, w) && Watched(w, watch, id) && who in w.lookups
    ensures var t := AfterAnswer(enc, w, who); Watched(t, WatchStep(w, watch, Answered(who), t, id), id)
  {
    var reply := MakeReply(enc, w, w.lookups[who]);
    ReplyIsWatched(w, watch, id, who, reply);
  }

  lemma LossIsWatched(w: World, watch: Watch, id: ConnectionId, lost: ConnectionId)
    requires Watched(w, watch, id) && Fetching(w, lost)
    ensures var t := FinishFetch(w.(lookups := w.lookups - {Websocket(lost)}), Websocket(lost), None);
            Watched(t, WatchStep(w, watch, FetchLost(lost), t, id), id)
  {
    var quiet := w.(lookups := w.lookups - {Websocket(lost)});
    var t := FinishFetch(quiet, Websocket(lost), None);
    FinishIsWatched(quiet, watch, WatchStep(w, watch, FetchLost(lost), t, id), Websocket(lost), id, None);
  }

  /** Steps of a connection's server task that touch the registry only. */
  lemma RegistryStepIsWatched(enc: Encoding, w: World, watch: Watch, id: ConnectionId, e: Event)
    requires Inv(enc, w) && Watched(w, watch, id) && Enabled(w, e)
    requires e.HelloReceived? || e.HelloRegistered? || e.HeartbeatReceived? || e.Left? || e.CleanedUp?
    ensures Watched(Step(enc, w, e), WatchStep(w, watch, e, Step(enc, w, e), id), id)
  {
    var t := Step(enc, w, e);
    assert t.bus == w.bus && t.lookups == w.lookups && w.registry.conns.Keys <= t.registry.conns.Keys;
  }

  lemma ReadIsWatched(enc: Encoding, w: World, watch: Watch, id: ConnectionId, reader: ConnectionId)
    requires w.history != [] && Watched(w, watch, id) && Enabled(w, AgentRead(reader))
    ensures var t := Step(enc, w, AgentRead(reader)); Watched(t, WatchStep(w, watch, AgentRead(reader), t, id), id)
  {
    var t := UpdateLink(w, reader, Delivery.AgentRead(w.bus.links[reader]));
    assert Watched(t, WatchStep(w, watch, AgentRead(reader), t, id), id);
  }

  lemma BusStepIsWatched(enc: Encoding, w: World, watch: Watch, id: ConnectionId, e: Event)
    requires w.history != [] && Watched(w, watch, id) && Enabled(w, e)
    requires e.Opened? || e.AckSent? || e.NotificationReceived? || e.ConfigWritten? || e.ReloadAnnounced?
    ensures Watched(Step(enc, w, e), WatchStep(w, watch, e, Step(enc, w, e), id), id)
  {
    var t := Step(enc, w, e);
    assert t.lookups == w.lookups && w.registry.conns.Keys <= t.registry.conns.Keys;
    assert Fetching(t, id) == Fetching(w, id);
  }

  lemma StepIsWatched(enc: Encoding, w: World, watch: Watch, id: ConnectionId, e: Event)
    requires Inv(enc, w) && Watched(w, watch, id)
    ensures Watched(Step(enc, w, e), WatchStep(w, watch, e, Step(enc, w, e), id), id)
  {
    if Enabled(w, e) {
      match e
      case LookedUp(who, agentId, session, token) => LookupIsWatched(enc, w, watch, id, who, agentId, session, token);
      case Answered(who) => AnswerIsWatched(enc, w, watch, id, who);
      case FetchLost(lost) => LossIsWatched(w, watch, id, lost);
      case AgentRead(reader) => ReadIsWatched(enc, w, watch, id, reader);
      case _ =>
        if e.HelloReceived? || e.HelloRegistered? || e.HeartbeatReceived? || e.Left? || e.CleanedUp? {
          RegistryStepIsWatched(enc, w, watch, id, e);
        } else {
          BusStepIsWatched(enc, w, watch, id, e);
        }
    }
  }

  lemma {:induction false} RunIsWatched(enc: Encoding, w: World, watch: Watch, events: seq<Event>, id: ConnectionId)
    requires Inv(enc, w) && Watched(w, watch, id)
    ensures Watched(Run(enc, w, events), WatchRun(enc, w, watch, events, id), id)
    decreases |events|
  {
    if events != [] {
      var next := Step(enc, w, events[0]);
      StepKeeps(enc, w, events[0]);
      StepIsWatched(enc, w, watch, id, events[0]);
      RunIsWatched(enc, next, WatchStep(w, watch, events[0], next, id), events[1..], id);
    }
  }

  /**
   No notification is ignored. In every run an acknowledged agent's last fetch began when it read its newest notice;
   and that fetch is under way until it is lost, finds no session bound to the agent it asks for, or is answered,
   in which case the agent holds what that reply served.
   */
  lemma EveryNoticeIsFetched(enc: Encoding, config: LoadedConfig, events: seq<Event>, id: ConnectionId)
    requires PassesValidation(config.file)
    ensures var w, watch := Run(enc, Start(config), events), WatchRun(enc, Start(config), NO_FETCH, events, id);
            Linked(w, id) ==> NoticeIsFetched(w.bus.links[id], watch, id)
  {
    StartOk(enc, config);
    RunIsWatched(enc, Start(config), NO_FETCH, events, id);
  }

  // ------------------------------------------------------- a reload that arrives

  predicate HasLink(w: World, id: ConnectionId, l: Delivery.Link<RuntimeConfig>) {
    Linked(w, id) && w.bus.links[id] == l
  }

  /** Everything but the notification channel and the links is as before. */
  predicate SameServer(w: World, t: World) {
    t == w.(bus := t.bus) && t.bus.loads == w.bus.loads
  }

  lemma NoticeIsForwarded(enc: Encoding, w: World, id: ConnectionId, version: string, l: Delivery.Link<RuntimeConfig>)
    requires w.history != [] && HasLink(w, id, l) && InTask(w, id, Reading)
    requires version in w.bus.unannounced && l.cursor == |w.bus.log| && l.wire == []
    ensures var n, t := |w.bus.log|, Step(enc, Step(enc, w, ReloadAnnounced(version)), NotificationReceived(id));
            && SameServer(w, t) && t.bus.unannounced == w.bus.unannounced - multiset{version} && |t.bus.log| == n + 1
            && HasLink(t, id, l.(cursor := n + 1, forwarded := n + 1, wire := [Delivery.ConfigChanged(n, version)]))
  {
    var v := Step(enc, w, ReloadAnnounced(version));
    assert HasLink(v, id, l) && v.bus.log == w.bus.log + [Delivery.Notice(version, w.bus.loads)];
    assert [] + [Delivery.ConfigChanged(l.cursor, version)] == [Delivery.ConfigChanged(l.cursor, version)];
  }

  lemma NoticeIsRead(enc: Encoding, w: World, id: ConnectionId, n: nat, version: string, l: Delivery.Link<RuntimeConfig>)
    requires w.history != [] && HasLink(w, id, l) && l.acked && !l.fetching && l.wire == [Delivery.ConfigChanged(n, version)]
    ensures var t := Step(enc, w, AgentRead(id));
            && SameServer(w, t) && t.bus.unannounced == w.bus.unannounced && t.bus.log == w.bus.log
            && HasLink(t, id, l.(wire := [], handled := n + 1, fetching := true, answer := None))
  {
    assert [Delivery.ConfigChanged(n, version)][1..] == [];
  }

  lemma AgentAsks(enc: Encoding, w: World, id: ConnectionId, agent: ConnectedAgent, token: string)
    requires w.history != [] && Serving(w, id, agent) && Fetching(w, id)
    ensures var t := Step(enc, w, LookedUp(Websocket(id), agent.agentId, id, Some(token)));
            && t == w.(lookups := t.lookups) && Websocket(id) in t.lookups
            && t.lookups[Websocket(id)].agent == agent && t.lookups[Websocket(id)].token == Some(token)
            && t.lookups[Websocket(id)].session == id
  {
  }

  lemma AgentGets(enc: Encoding, w: World, id: ConnectionId, reply: Reply)
    requires w.history != [] && Fetching(w, id) && Websocket(id) in w.lookups
    requires MakeReply(enc, w, w.lookups[Websocket(id)]) == reply
    ensures var t := Run(enc, w, [Answered(Websocket(id))]);
            && t.history == w.history && t.bus.unannounced == w.bus.unannounced && t.bus.log == w.bus.log
            && HasLink(t, id, w.bus.links[id].(fetching := false, answer := Brought(reply.load, reply.response)))
  {
    RunOne(enc, w, Answered(Websocket(id)));
    AnswerIs(enc, w, Websocket(id), reply);
  }

  /** The agent has nothing left to read and its request for its own config is open. */
  predicate Asking(w: World, id: ConnectionId, agent: ConnectedAgent, token: string) {
    && Fetching(w, id) && Websocket(id) in w.lookups
    && w.bus.links[id].cursor == |w.bus.log| && w.bus.links[id].wire == [] && w.bus.links[id].acked
    && w.lookups[Websocket(id)].agent == agent && w.lookups[Websocket(id)].token == Some(token)
  }

  lemma AgentIsAnswered(
    enc: Encoding, w: World, file: ControlFile, id: ConnectionId, agent: ConnectedAgent, token: string, load: nat,
    response: Response)
    requires |w.history| == load + 1 && Active(w) == file && Asking(w, id, agent, token)
    requires ServeConfig(enc, file, agent, Some(token)) == response
    ensures var t := Run(enc, w, [Answered(Websocket(id))]);
            && t.history == w.history && t.bus.unannounced == w.bus.unannounced && t.bus.log == w.bus.log
            && HasLink(t, id, w.bus.links[id].(fetching := false, answer := Brought(load, response)))
  {
    var lookup := w.lookups[Websocket(id)];
    ReplyMade(enc, w, file, lookup, response);
    AgentGets(enc, w, id, Reply(lookup.requested, lookup.agent.hostname, lookup.token, lookup.session, lookup.wasBound,
                                load, response));
  }

  /** A broadcast, its way to the agent, and the request it triggers. */
  function Arrival(id: ConnectionId, agent: ConnectedAgent, token: string, version: string): seq<Event> {
    [ReloadAnnounced(version), NotificationReceived(id)]
    + [AgentRead(id), LookedUp(Websocket(id), agent.agentId, id, Some(token))]
  }

  lemma BroadcastArrives(enc: Encoding, w: World, id: ConnectionId, version: string, l: Delivery.Link<RuntimeConfig>)
    returns (v: World)
    requires w.history != [] && HasLink(w, id, l) && InTask(w, id, Reading)
    requires version in w.bus.unannounced && l.cursor == |w.bus.log| && l.wire == []
    ensures Run(enc, w, [ReloadAnnounced(version), NotificationReceived(id)]) == v
    ensures var n := |w.bus.log|;
            && SameServer(w, v) && v.bus.unannounced == w.bus.unannounced - multiset{version} && |v.bus.log| == n + 1
            && HasLink(v, id, l.(cursor := n + 1, forwarded := n + 1, wire := [Delivery.ConfigChanged(n, version)]))
  {
    RunTwo(enc, w, ReloadAnnounced(version), NotificationReceived(id));
    NoticeIsForwarded(enc, w, id, version, l);
    v := Step(enc, Step(enc, w, ReloadAnnounced(version)), NotificationReceived(id));
  }

  lemma AgentReadsAndAsks(
    enc: Encoding, w: World, id: ConnectionId, agent: ConnectedAgent, token: string, n: nat, version: string,
    l: Delivery.Link<RuntimeConfig>) returns (v: World)
    requires w.history != [] && Serving(w, id, agent)
    requires HasLink(w, id, l) && l.acked && !l.fetching && l.wire == [Delivery.ConfigChanged(n, version)]
    ensures Run(enc, w, [AgentRead(id), LookedUp(Websocket(id), agent.agentId, id, Some(token))]) == v
    ensures v == w.(bus := v.bus, lookups := v.lookups) && v.bus.unannounced == w.bus.unannounced && v.bus.log == w.bus.log
    ensures HasLink(v, id, l.(wire := [], handled := n + 1, fetching := true, answer := None))
    ensures Websocket(id) in v.lookups
    ensures v.lookups[Websocket(id)].agent == agent && v.lookups[Websocket(id)].token == Some(token)
  {
    var ask := LookedUp(Websocket(id), agent.agentId, id, Some(token));
    RunTwo(enc, w, AgentRead(id), ask);
    NoticeIsRead(enc, w, id, n, version, l);
    AgentAsks(enc, Step(enc, w, AgentRead(id)), id, agent, token);
    v := Step(enc, Step(enc, w, AgentRead(id)), ask);
  }

  lemma RunOne(enc: Encoding, w: World, e: Event)
    requires w.history != []
    ensures Run(enc, w, [e]) == Step(enc, w, e)
  {
    assert [e][1..] == [];
    assert Run(enc, Step(enc, w, e), []) == Step(enc, w, e);
  }

  /** An acknowledged agent has nothing left to read, and a written config waits for its broadcast. */
  predicate Waiting(w: World, id: ConnectionId, agent: ConnectedAgent, version: string) {
    && Serving(w, id, agent) && version in w.bus.unannounced
    && Delivery.Drained(w.bus, id) && w.bus.links[id].acked
  }

  lemma NoticeIsAskedFor(
    enc: Encoding, w: World, id: ConnectionId, agent: ConnectedAgent, token: string, version: string) returns (v: World)
    requires w.history != [] && Waiting(w, id, agent, version)
    ensures Run(enc, w, Arrival(id, agent, token, version)) == v
    ensures v == w.(bus := v.bus, lookups := v.lookups) && v.bus.unannounced == w.bus.unannounced - multiset{version}
    ensures Asking(v, id, agent, token)
  {
    var l, n := w.bus.links[id], |w.bus.log|;
    RunConcat(enc, w, [ReloadAnnounced(version), NotificationReceived(id)],
              [AgentRead(id), LookedUp(Websocket(id), agent.agentId, id, Some(token))]);
    var forwarded := BroadcastArrives(enc, w, id, version, l);
    v := AgentReadsAndAsks(enc, forwarded, id, agent, token, n, version, forwarded.bus.links[id]);
  }

  /** Nothing left to read or to fetch, and the last fetch brought that response. */
  predicate HasFetched(w: World, id: ConnectionId, load: nat, response: Response) {
    Delivery.Drained(w.bus, id) && w.bus.links[id].acked && w.bus.links[id].answer == Brought(load, response)
  }

  /** A request under way is answered by what the newest config answers it. */
  lemma AskedThenAnswered(
    enc: Encoding, start: World, early: seq<Event>, w: World, file: ControlFile, id: ConnectionId, agent: ConnectedAgent,
    token: string, load: nat, response: Response) returns (t: World)
    requires start.history != [] && Run(enc, start, early) == w && |w.history| == load + 1 && Active(w) == file
    requires Asking(w, id, agent, token)
    requires ServeConfig(enc, file, agent, Some(token)) == response
    ensures Run(enc, start, early + [Answered(Websocket(id))]) == t
    ensures HasFetched(t, id, load, response)
    ensures t.history == w.history && t.bus.unannounced == w.bus.unannounced
  {
    AgentIsAnswered(enc, w, file, id, agent, token, load, response);
    t := Run(enc, w, [Answered(Websocket(id))]);
    RunConcat(enc, start, early, [Answered(Websocket(id))]);
  }

  /**
   From any state in which an acknowledged agent has nothing left to read and a written config waits for its
   broadcast, the broadcast makes the agent fetch, and what it gets is what the newest config answers it.
   */
  lemma ReloadArrives(
    enc: Encoding, w: World, file: ControlFile, id: ConnectionId, agent: ConnectedAgent, token: string, version: string,
    load: nat, response: Response) returns (t: World)
    requires |w.history| == load + 1 && Active(w) == file && Waiting(w, id, agent, version)
    requires ServeConfig(enc, file, agent, Some(token)) == response
    ensures Run(enc, w, Arrival(id, agent, token, version) + [Answered(Websocket(id))]) == t
    ensures HasFetched(t, id, load, response)
    ensures t.history == w.history && t.bus.unannounced == w.bus.unannounced - multiset{version}
  {
    var asked := NoticeIsAskedFor(enc, w, id, agent, token, version);
    t := AskedThenAnswered(enc, w, Arrival(id, agent, token, version), asked, file, id, agent, token, load, response);
  }

  /** From start to finish: an agent served from the first config is served from the next one once it is broadcast. */
  lemma UpdateReachesAgent(
    enc: Encoding, config: LoadedConfig, next: LoadedConfig, id: ConnectionId, token: string, hello: Hello,
    runtime: RuntimeConfig, latest: RuntimeConfig) returns (events: seq<Event>)
    requires PassesValidation(next.file)
    requires HasCredential(enc, config.file, hello.agentId, hello.hostname, Some(token))
    requires HasCredential(enc, next.file, hello.agentId, hello.hostname, Some(token))
    requires RuntimeConfigFor(enc, config.file, hello.hostname) == Ok(runtime)
    requires RuntimeConfigFor(enc, next.file, hello.hostname) == Ok(latest)
    ensures var w := Run(enc, Start(config), events);
            && HasFetched(w, id, 1, Served(latest)) && w.bus.unannounced == multiset{}
            && w.history == [config, next]
  {
    var before := StaleUntilAnnounced(enc, config, next, id, token, hello, runtime);
    var w := Run(enc, Start(config), before);
    AgentIsServed(enc, next, id, token, hello, latest);
    var agent := NewAgent(id, hello, 0);
    var after := ReloadArrives(enc, w, next.file, id, agent, token, next.sourceVersion, 1, Served(latest));
    var arrival := Arrival(id, agent, token, next.sourceVersion) + [Answered(Websocket(id))];
    RunConcat(enc, Start(config), before, arrival);
    events := before + arrival;
  }
}
