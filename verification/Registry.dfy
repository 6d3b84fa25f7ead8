/**
 The control server's agent registry: one shared map of connected agents, edited under a
 lock by any number of WebSocket connections.

 Every function below is one lock-held region; connection-local variables are kept per connection.
 */
module Registry {
  import opened Common
  import opened RuntimeConfigs
  import Text

  type AgentId = string
  type ConnectionId = string

  datatype ConnectedAgent = ConnectedAgent(
    agentId: AgentId,
    hostname: string,
    agentVersion: string,
    bootId: Option<string>,
    configVersion: Option<string>,
    enabledCollectors: seq<string>,
    connectedAt: nat,
    lastSeen: nat,
    connectionId: ConnectionId)

  datatype Hello = Hello(agentId: AgentId, hostname: string, agentVersion: string, bootId: Option<string>)

  datatype Heartbeat = Heartbeat(
    agentId: AgentId,
    hostname: string,
    agentVersion: string,
    configVersion: string,
    enabledCollectors: seq<string>)

  type Agents = map<AgentId, ConnectedAgent>

  // ------------------------------------------------------------- credentials

  predicate SecretMatches(enc: Encoding, configured: string, presented: string) {
    !Text.Blank(configured) && enc.digest(configured) == enc.digest(presented)
  }

  predicate Enrolled(file: ControlFile, agentId: AgentId, hostname: string) {
    agentId in file.agents && file.agents[agentId].hostname == hostname
  }

  /** `agent_has_config_credential`. */
  predicate HasCredential(enc: Encoding, file: ControlFile, agentId: AgentId, hostname: string, token: Option<string>) {
    && Enrolled(file, agentId, hostname)
    && token.Some?
    && file.agents[agentId].configToken.Some?
    && SecretMatches(enc, file.agents[agentId].configToken.value, token.value)
  }

  /**
   The credential spelled out: the file enrols the agent under that hostname with a token that has a character
   that is no whitespace, and a token with the same digest was presented.
   */
  predicate Presents(enc: Encoding, file: ControlFile, agentId: AgentId, hostname: string, token: Option<string>) {
    && agentId in file.agents && token.Some?
    && var enrollment := file.agents[agentId];
       && enrollment.hostname == hostname && enrollment.configToken.Some?
       && !(forall c :: c in enrollment.configToken.value ==> Text.IsWhitespace(c))
       && enc.digest(enrollment.configToken.value) == enc.digest(token.value)
  }

  lemma CredentialIsPresented(enc: Encoding, file: ControlFile, agentId: AgentId, hostname: string, token: Option<string>)
    ensures HasCredential(enc, file, agentId, hostname, token) <==> Presents(enc, file, agentId, hostname, token)
  {
    if agentId in file.agents && file.agents[agentId].configToken.Some? {
      Text.TrimsToNothing(file.agents[agentId].configToken.value);
    }
  }

  // ------------------------------------------------------- lock-held regions

  predicate Owns(agents: Agents, id: ConnectionId, a: AgentId) {
    a in agents && agents[a].connectionId == id
  }

  function NewAgent(id: ConnectionId, hello: Hello, now: nat): ConnectedAgent {
    ConnectedAgent(hello.agentId, hello.hostname, hello.agentVersion, hello.bootId, None, [], now, now, id)
  }

  predicate DuplicateHello(agents: Agents, id: ConnectionId, hello: Hello) {
    hello.agentId in agents && agents[hello.agentId].connectionId != id
  }

  /** The registry after an accepted hello: the previous entry is released, the new one inserted. */
  function AfterHello(agents: Agents, id: ConnectionId, current: Option<AgentId>, hello: Hello, now: nat): Agents {
    var kept :=
      if current.Some? && current.value != hello.agentId && Owns(agents, id, current.value)
      then agents - {current.value}
      else agents;
    kept[hello.agentId := NewAgent(id, hello, now)]
  }

  datatype HeartbeatOutcome = Unbound | Stale | Unknown | Applied

  function HeartbeatOutcomeOf(agents: Agents, id: ConnectionId, current: Option<AgentId>, beat: Heartbeat): HeartbeatOutcome {
    if current != Some(beat.agentId) then Unbound
    else if beat.agentId !in agents then Unknown
    else if agents[beat.agentId].connectionId != id then Stale
    else Applied
  }

  function AfterHeartbeat(agents: Agents, id: ConnectionId, current: Option<AgentId>, beat: Heartbeat, now: nat): Agents {
    if HeartbeatOutcomeOf(agents, id, current, beat) != Applied then agents
    else
      agents[beat.agentId := agents[beat.agentId].(
        hostname := beat.hostname,
        agentVersion := beat.agentVersion,
        configVersion := Some(beat.configVersion),
        enabledCollectors := beat.enabledCollectors,
        lastSeen := now)]
  }

  function AfterRemoval(agents: Agents, id: ConnectionId, current: Option<AgentId>): Agents {
    if current.Some? && Owns(agents, id, current.value) then agents - {current.value} else agents
  }

  /** `connected_agent_for_config`. */
  function FindForConfig(agents: Agents, agentId: AgentId, session: ConnectionId): Option<ConnectedAgent> {
    if Owns(agents, session, agentId) then Some(agents[agentId]) else None
  }

  datatype Response = Forbidden | InternalError(error: ConfigError) | Served(runtime: RuntimeConfig)

  /** The part of `agent_config` that holds the config lock. */
  function ServeConfig(enc: Encoding, file: ControlFile, agent: ConnectedAgent, token: Option<string>): Response {
    if !HasCredential(enc, file, agent.agentId, agent.hostname, token) then Forbidden
    else
      match RuntimeConfigFor(enc, file, agent.hostname)
      case Ok(runtime) => Served(runtime)
      case Err(error) => InternalError(error)
  }

  /** `runtime` is what the file gives the hostname it enrols for that agent. */
  predicate AnswerFor(enc: Encoding, file: ControlFile, agentId: AgentId, runtime: RuntimeConfig) {
    agentId in file.agents && RuntimeConfigFor(enc, file, file.agents[agentId].hostname) == Ok(runtime)
  }

  /**
   What every response must be: a refusal exactly when the credential is missing; otherwise what the file gives
   the hostname, where an error means that a block for the empty hostname hides broken defaults.
   */
  predicate ResponseOk(
    enc: Encoding, file: ControlFile, agentId: AgentId, hostname: string, token: Option<string>, response: Response)
  {
    var config := RuntimeConfigFor(enc, file, hostname);
    match response
    case Forbidden => !Presents(enc, file, agentId, hostname, token)
    case Served(runtime) => Presents(enc, file, agentId, hostname, token) && config == Ok(runtime)
    case InternalError(error) =>
      && Presents(enc, file, agentId, hostname, token) && config == Err(error)
      && "" in file.hosts && !ValidSettings(Apply(file.defaults, DEFAULT_SETTINGS))
  }

  lemma ServeConfigIsOk(enc: Encoding, file: ControlFile, agent: ConnectedAgent, token: Option<string>)
    requires PassesValidation(file)
    ensures ResponseOk(enc, file, agent.agentId, agent.hostname, token, ServeConfig(enc, file, agent, token))
  {
    CredentialIsPresented(enc, file, agent.agentId, agent.hostname, token);
    if ServeConfig(enc, file, agent, token).InternalError? {
      assert RuntimeConfigFor(enc, file, agent.hostname).Err?;
      FiniteCheckCoversEveryHost(enc, file);
    }
  }

  // -------------------------------------------------- the same, in place

  /** One WebSocket connection task: its id, its credential and the agent it is bound to. */
  class Socket {
    const id: ConnectionId
    const token: Option<string>
    var current: Option<AgentId>

    constructor (id: ConnectionId, token: Option<string>)
      ensures this.id == id && this.token == token && current == None
    {
      this.id := id;
      this.token := token;
      current := None;
    }
  }

  class AppState {
    var file: ControlFile
    var agents: Agents

    constructor (file: ControlFile)
      ensures this.file == file && agents == map[]
    {
      this.file := file;
      agents := map[];
    }

    /**
     `agent_hello_authorized`, the region that holds the config lock: the enrolment, its hostname, the presented
     token and the configured one are looked at in turn.
     */
    method AgentHelloAuthorized(enc: Encoding, socket: Socket, hello: Hello) returns (authorized: bool)
      ensures authorized <==> Presents(enc, file, hello.agentId, hello.hostname, socket.token)
      ensures authorized <==> HasCredential(enc, file, hello.agentId, hello.hostname, socket.token)
    {
      if hello.agentId !in file.agents {
        return false;
      }
      var enrollment := file.agents[hello.agentId];
      if enrollment.hostname != hello.hostname {
        return false;
      }
      if socket.token.None? {
        return false;
      }
      if enrollment.configToken.None? {
        return false;
      }
      var configured, presented := enrollment.configToken.value, socket.token.value;
      Text.TrimsToNothing(configured);
      if Text.Trim(configured) == "" {
        return false;
      }
      return enc.digest(configured) == enc.digest(presented);
    }

    /**
     `register_agent_connection` from the outcome of the credential check on: the region that holds the registry
     lock. Between the two regions other tasks may change the config and the registry.
     */
    method RegisterAgentConnection(socket: Socket, hello: Hello, authorized: bool, now: nat) returns (accepted: Option<nat>)
      modifies this`agents, socket
      ensures accepted.Some? <==>
                authorized && (hello.agentId in old(agents) ==> old(agents)[hello.agentId].connectionId == socket.id)
      ensures accepted.Some? ==>
                && hello.agentId in agents
                && agents[hello.agentId]
                   == ConnectedAgent(hello.agentId, hello.hostname, hello.agentVersion, hello.bootId, None, [], now, now, socket.id)
                && forall a :: a != hello.agentId ==>
                     && (a in agents <==>
                           a in old(agents) && !(old(socket.current) == Some(a) && old(agents)[a].connectionId == socket.id))
                     && (a in agents ==> agents[a] == old(agents)[a])
      ensures accepted == if authorized && !DuplicateHello(old(agents), socket.id, hello) then Some(now) else None
      ensures accepted.Some? ==>
                && agents == AfterHello(old(agents), socket.id, old(socket.current), hello, now)
                && socket.current == Some(hello.agentId)
      ensures accepted.None? ==> agents == old(agents) && socket.current == old(socket.current)
    {
      if !authorized {
        return None;
      }
      if hello.agentId in agents && agents[hello.agentId].connectionId != socket.id {
        return None;
      }
      if socket.current.Some? {
        var previous := socket.current.value;
        if previous != hello.agentId && previous in agents && agents[previous].connectionId == socket.id {
          agents := agents - {previous};
        }
      }
      socket.current := Some(hello.agentId);
      agents := agents[hello.agentId := NewAgent(socket.id, hello, now)];
      return Some(now);
    }

    method HandleHeartbeat(socket: Socket, beat: Heartbeat, now: nat) returns (outcome: HeartbeatOutcome)
      modifies this`agents
      ensures outcome.Unbound? <==> socket.current != Some(beat.agentId)
      ensures outcome.Unknown? <==> socket.current == Some(beat.agentId) && beat.agentId !in old(agents)
      ensures outcome.Applied? <==>
                && socket.current == Some(beat.agentId)
                && beat.agentId in old(agents) && old(agents)[beat.agentId].connectionId == socket.id
      ensures outcome.Applied? ==>
                var entry := old(agents)[beat.agentId];
                agents == old(agents)[beat.agentId := ConnectedAgent(
                  entry.agentId, beat.hostname, beat.agentVersion, entry.bootId, Some(beat.configVersion),
                  beat.enabledCollectors, entry.connectedAt, now, entry.connectionId)]
      ensures !outcome.Applied? ==> agents == old(agents)
      ensures outcome == HeartbeatOutcomeOf(old(agents), socket.id, socket.current, beat)
      ensures agents == AfterHeartbeat(old(agents), socket.id, socket.current, beat, now)
    {
      if socket.current != Some(beat.agentId) {
        return Unbound;
      }
      if beat.agentId !in agents {
        return Unknown;
      }
      var agent := agents[beat.agentId];
      if agent.connectionId != socket.id {
        return Stale;
      }
      agent := agent.(hostname := beat.hostname, agentVersion := beat.agentVersion);
      agent := agent.(configVersion := Some(beat.configVersion), enabledCollectors := beat.enabledCollectors);
      agent := agent.(lastSeen := now);
      agents := agents[beat.agentId := agent];
      return Applied;
    }

    method RemoveAgent(socket: Socket)
      modifies this`agents
      ensures forall a :: a in agents <==>
                a in old(agents) && !(socket.current == Some(a) && old(agents)[a].connectionId == socket.id)
      ensures forall a :: a in agents ==> agents[a] == old(agents)[a]
      ensures agents == AfterRemoval(old(agents), socket.id, socket.current)
    {
      if socket.current.Some? {
        var agentId := socket.current.value;
        var shouldRemove := agentId in agents && agents[agentId].connectionId == socket.id;
        if shouldRemove {
          agents := agents - {agentId};
        }
      }
    }
  }

  // ------------------------------------------------- the registry over time

  /** Where a connection task stands between two lock-held regions. */
  datatype Task = Reading | Registering(hello: Hello) | Acking | Exiting | Gone

  datatype Connection = Connection(token: Option<string>, current: Option<AgentId>, task: Task)

  datatype State = State(agents: Agents, conns: map<ConnectionId, Connection>)

  predicate Alive(s: State, id: ConnectionId) {
    id in s.conns && s.conns[id].task != Gone
  }

  predicate BoundTo(s: State, id: ConnectionId, a: AgentId) {
    Alive(s, id) && s.conns[id].current == Some(a)
  }

  /** A live connection is bound to an agent exactly when that agent's entry carries the connection's id. */
  ghost predicate Bound(s: State) {
    && (forall a :: a in s.agents ==> s.agents[a].agentId == a && BoundTo(s, s.agents[a].connectionId, a))
    && (forall id :: Alive(s, id) && s.conns[id].current.Some? ==> Owns(s.agents, id, s.conns[id].current.value))
  }

  /** The invariant in the form a reader asks for, with its consequences. */
  lemma BindingIsExact(s: State, id: ConnectionId, a: AgentId)
    requires Bound(s)
    ensures Owns(s.agents, id, a) <==> BoundTo(s, id, a)
    ensures FindForConfig(s.agents, a, id).Some? <==> BoundTo(s, id, a)
    ensures forall b :: Owns(s.agents, id, a) && Owns(s.agents, id, b) ==> a == b
    ensures !Alive(s, id) ==> !Owns(s.agents, id, a)
  {
  }

  function Open(s: State, id: ConnectionId, token: Option<string>): State
    requires id !in s.conns
  {
    s.(conns := s.conns[id := Connection(token, None, Reading)])
  }

  function SetTask(s: State, id: ConnectionId, task: Task): State
    requires id in s.conns
  {
    s.(conns := s.conns[id := s.conns[id].(task := task)])
  }

  /** A hello that was already authorized reaches the registry lock. */
  function Register(s: State, id: ConnectionId, now: nat): State
    requires id in s.conns && s.conns[id].task.Registering?
  {
    var conn := s.conns[id];
    var hello := conn.task.hello;
    if DuplicateHello(s.agents, id, hello) then SetTask(s, id, Reading)
    else
      State(AfterHello(s.agents, id, conn.current, hello, now),
            s.conns[id := conn.(current := Some(hello.agentId), task := Acking)])
  }

  function Beat(s: State, id: ConnectionId, beat: Heartbeat, now: nat): State
    requires id in s.conns
  {
    s.(agents := AfterHeartbeat(s.agents, id, s.conns[id].current, beat, now))
  }

  function Cleanup(s: State, id: ConnectionId): State
    requires id in s.conns
  {
    SetTask(s.(agents := AfterRemoval(s.agents, id, s.conns[id].current)), id, Gone)
  }

  lemma OpenKeepsBound(s: State, id: ConnectionId, token: Option<string>)
    requires Bound(s) && id !in s.conns
    ensures Bound(Open(s, id, token))
  {
  }

  lemma SetTaskKeepsBound(s: State, id: ConnectionId, task: Task)
    requires Bound(s) && Alive(s, id) && task != Gone
    ensures Bound(SetTask(s, id, task))
  {
  }

  lemma RegisterKeepsBound(s: State, id: ConnectionId, now: nat)
    requires Bound(s) && id in s.conns && s.conns[id].task.Registering?
    ensures Bound(Register(s, id, now))
  {
    var t := Register(s, id, now);
    forall a | a in t.agents
      ensures t.agents[a].agentId == a && BoundTo(t, t.agents[a].connectionId, a)
    {
      if a in s.agents {
        assert BoundTo(s, s.agents[a].connectionId, a);
      }
    }
  }

  lemma BeatKeepsBound(s: State, id: ConnectionId, beat: Heartbeat, now: nat)
    requires Bound(s) && Alive(s, id)
    ensures Bound(Beat(s, id, beat, now))
  {
    var t := Beat(s, id, beat, now);
    forall a | a in t.agents
      ensures t.agents[a].agentId == a && BoundTo(t, t.agents[a].connectionId, a)
    {
      assert BoundTo(s, s.agents[a].connectionId, a);
    }
  }

  lemma CleanupKeepsBound(s: State, id: ConnectionId)
    requires Bound(s) && Alive(s, id)
    ensures Bound(Cleanup(s, id))
    ensures !Alive(Cleanup(s, id), id)
  {
    var t := Cleanup(s, id);
    forall a | a in t.agents
      ensures t.agents[a].agentId == a && BoundTo(t, t.agents[a].connectionId, a)
    {
      assert BoundTo(s, s.agents[a].connectionId, a);
    }
  }

  /** The stale and the unknown branch of the heartbeat handler are dead code. */
  lemma HeartbeatBranches(s: State, id: ConnectionId, beat: Heartbeat)
    requires Bound(s) && Alive(s, id)
    ensures HeartbeatOutcomeOf(s.agents, id, s.conns[id].current, beat)
         == if BoundTo(s, id, beat.agentId) then Applied else Unbound
  {
  }
}
