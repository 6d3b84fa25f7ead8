/**
 How a config reload reaches the agents: the bounded broadcast channel, one receiver per
 WebSocket connection, the ordered wire to the agent, and the fetch each message triggers.

 A `Bus` keeps an audit of the run beside the real state: the log of every notification ever
 broadcast with the number of loads at that moment. The program's decisions never read it.
 */
module Delivery {
  import opened Common

  const CAPACITY: nat := 128

  // ------------------------------------------------------- broadcast channel

  datatype Received<+T> = Message(value: T) | Lagged(skipped: nat) | Empty

  /** What a receiver at position `cursor` gets from a channel that keeps the last 128 of `log`. */
  function Receive<T>(log: seq<T>, cursor: nat): Received<T> {
    if cursor + CAPACITY < |log| then Lagged(|log| - CAPACITY - cursor)
    else if cursor < |log| then Message(log[cursor])
    else Empty
  }

  function NextCursor<T>(log: seq<T>, cursor: nat): nat {
    if cursor + CAPACITY < |log| then |log| - CAPACITY
    else if cursor < |log| then cursor + 1
    else cursor
  }

  /** What a receiver gets that keeps receiving until nothing is left. */
  function ReceiveAll<T>(log: seq<T>, cursor: nat): seq<T>
    decreases |log| - cursor
  {
    match Receive(log, cursor)
    case Message(message) => [message] + ReceiveAll(log, NextCursor(log, cursor))
    case Lagged(_) => ReceiveAll(log, NextCursor(log, cursor))
    case Empty => []
  }

  /** A receiver gets every message it has not lost, in order, and only what fell out of the last 128 is lost. */
  lemma {:induction false} NewestAreReceived<T>(log: seq<T>, cursor: nat)
    requires cursor <= |log|
    ensures ReceiveAll(log, cursor) == log[if |log| - cursor > 128 then |log| - 128 else cursor..]
    ensures Receive(log, cursor).Lagged? ==> NextCursor(log, cursor) == cursor + Receive(log, cursor).skipped
    decreases |log| - cursor
  {
    if cursor < |log| {
      NewestAreReceived(log, NextCursor(log, cursor));
    }
  }

  /** The channel itself: a ring of the newest messages and the count of dropped ones. */
  class Channel<T> {
    var ring: seq<T>
    var dropped: nat
    ghost var log: seq<T>

    ghost predicate Valid()
      reads this
    {
      && |ring| <= CAPACITY
      && (dropped > 0 ==> |ring| == CAPACITY)
      && |log| == dropped + |ring|
      && log[dropped..] == ring
    }

    constructor ()
      ensures Valid() && log == []
    {
      ring, dropped, log := [], 0, [];
    }

    method Send(message: T)
      requires Valid()
      modifies this
      ensures Valid() && log == old(log) + [message]
    {
      ring := ring + [message];
      log := log + [message];
      if |ring| > CAPACITY {
        ring := ring[1..];
        dropped := dropped + 1;
      }
    }

    method Recv(cursor: nat) returns (received: Received<T>, next: nat)
      requires Valid()
      ensures received == Receive(log, cursor) && next == NextCursor(log, cursor)
    {
      if cursor < dropped {
        return Lagged(dropped - cursor), dropped;
      }
      if cursor < dropped + |ring| {
        assert ring[cursor - dropped] == log[cursor];
        return Message(ring[cursor - dropped]), cursor + 1;
      }
      return Empty, cursor;
    }
  }

  // ----------------------------------------------------------------- the bus

  /** One broadcast: the version it names, and (audit) how many loads had been written by then. */
  datatype Notice = Notice(version: string, loads: nat)

  datatype WireMessage = HelloAck | ConfigChanged(position: nat, version: string)

  /** The last websocket-triggered fetch's answer: the load it was served from, and the reply. */
  datatype Answer<+R> = Answer(load: nat, reply: R)

  /**
   One connection, server receiver to agent task. `forwarded` and `handled` are audit marks: the
   log position after the last notification put on the wire, and after the last one the agent read.
   */
  datatype Link<+R> = Link(
    cursor: nat,
    forwarded: nat,
    wire: seq<WireMessage>,
    handled: nat,
    acked: bool,
    fetching: bool,
    answer: Option<Answer<R>>)

  datatype Bus<+R> = Bus(
    loads: nat,
    unannounced: multiset<string>,
    log: seq<Notice>,
    links: map<string, Link<R>>)

  function Loaded<R>(b: Bus<R>, version: string): Bus<R> {
    b.(loads := b.loads + 1, unannounced := b.unannounced + multiset{version})
  }

  function Announced<R>(b: Bus<R>, version: string): Bus<R>
    requires version in b.unannounced
  {
    b.(unannounced := b.unannounced - multiset{version}, log := b.log + [Notice(version, b.loads)])
  }

  function Subscribed<R>(b: Bus<R>, id: string): Bus<R> {
    b.(links := b.links[id := Link(|b.log|, |b.log|, [], |b.log|, false, false, None)])
  }

  function SetLink<R>(b: Bus<R>, id: string, l: Link<R>): Bus<R> {
    b.(links := b.links[id := l])
  }

  /** The connection task receives from its channel end: forward a notice, or note the lag. */
  function Forwarded<R>(log: seq<Notice>, l: Link<R>): Link<R> {
    var next := NextCursor(log, l.cursor);
    match Receive(log, l.cursor)
    case Message(notice) =>
      l.(cursor := next, forwarded := next, wire := l.wire + [ConfigChanged(l.cursor, notice.version)])
    case Lagged(_) => l.(cursor := next)
    case Empty => l
  }

  function Acknowledged<R>(l: Link<R>): Link<R> {
    l.(wire := l.wire + [HelloAck])
  }

  /** `handle_server_message`: an ack always fetches, a notification only once a session id is known. */
  function AgentRead<R>(l: Link<R>): Link<R>
    requires l.wire != [] && !l.fetching
  {
    var rest := l.wire[1..];
    match l.wire[0]
    case HelloAck => l.(wire := rest, acked := true, fetching := true, answer := None)
    case ConfigChanged(position, _) =>
      if l.acked then l.(wire := rest, handled := position + 1, fetching := true, answer := None)
      else l.(wire := rest, handled := position + 1)
  }

  function FetchDone<R>(l: Link<R>, answer: Option<Answer<R>>): Link<R> {
    l.(fetching := false, answer := answer)
  }

  /** A new connection hears what is broadcast from then on, as far as it keeps up, and nothing older. */
  lemma SubscriberHearsWhatFollows<R>(b: Bus<R>, id: string, later: seq<Notice>)
    ensures ReceiveAll(b.log + later, Subscribed(b, id).links[id].cursor)
         == later[if |later| > 128 then |later| - 128 else 0..]
  {
    NewestAreReceived(b.log + later, |b.log|);
  }

  // --------------------------------------------------------------- invariant

  function LastNotice(wire: seq<WireMessage>): Option<nat> {
    if wire == [] then None
    else
      var m := wire[|wire| - 1];
      if m.ConfigChanged? then Some(m.position) else LastNotice(wire[..|wire| - 1])
  }

  /** How many loads the log had seen when its first `n` notices were out. */
  function LoadsBefore(log: seq<Notice>, n: nat): nat
    requires n <= |log|
  {
    if n == 0 then 0 else log[n - 1].loads
  }

  ghost predicate LinkOk<R>(log: seq<Notice>, l: Link<R>) {
    && l.handled <= |log| && l.forwarded <= l.cursor <= |log|
    // A lag moves the cursor without forwarding anything, but never past the newest notice.
    && (l.cursor == |log| ==> l.forwarded == l.cursor)
    && (forall i :: 0 <= i < |l.wire| && l.wire[i].ConfigChanged? ==> l.wire[i].position < |log|)
    && match LastNotice(l.wire) {
         case Some(position) => position + 1 == l.forwarded
         case None => l.handled == l.forwarded
       }
    && (l.acked && !l.fetching && l.answer.Some? ==> l.answer.value.load >= LoadsBefore(log, l.handled))
  }

  ghost predicate BusOk<R>(b: Bus<R>) {
    && (forall i :: 0 <= i < |b.log| ==> b.log[i].loads <= b.loads)
    // Every load not yet covered by a broadcast is still waiting to be announced.
    && b.loads - LoadsBefore(b.log, |b.log|) <= |b.unannounced|
    && (forall id :: id in b.links ==> LinkOk(b.log, b.links[id]))
    && (forall id :: id in b.links && b.links[id].answer.Some? ==> b.links[id].answer.value.load <= b.loads)
  }

  lemma LoadedKeeps<R>(b: Bus<R>, version: string)
    requires BusOk(b)
    ensures BusOk(Loaded(b, version))
  {
  }

  lemma AnnouncedKeeps<R>(b: Bus<R>, version: string)
    requires BusOk(b) && version in b.unannounced
    ensures BusOk(Announced(b, version))
  {
    var t := Announced(b, version);
    assert t.log[..|b.log|] == b.log;
    forall id | id in t.links
      ensures LinkOk(t.log, t.links[id])
    {
      assert LinkOk(b.log, b.links[id]);
    }
  }

  lemma SubscribedKeeps<R>(b: Bus<R>, id: string)
    requires BusOk(b)
    ensures BusOk(Subscribed(b, id))
  {
  }

  lemma SetLinkKeeps<R>(b: Bus<R>, id: string, l: Link<R>)
    requires BusOk(b) && LinkOk(b.log, l)
    requires l.answer.Some? ==> l.answer.value.load <= b.loads
    ensures BusOk(SetLink(b, id, l))
  {
  }

  lemma ForwardedKeeps<R>(log: seq<Notice>, l: Link<R>)
    requires LinkOk(log, l)
    ensures LinkOk(log, Forwarded(log, l))
  {
    var t := Forwarded(log, l);
    if Receive(log, l.cursor).Message? {
      assert t.wire[..|l.wire|] == l.wire;
      assert LastNotice(t.wire) == Some(l.cursor);
    }
  }

  lemma AcknowledgedKeeps<R>(log: seq<Notice>, l: Link<R>)
    requires LinkOk(log, l)
    ensures LinkOk(log, Acknowledged(l))
  {
    assert Acknowledged(l).wire[..|l.wire|] == l.wire;
  }

  lemma AgentReadKeeps<R>(log: seq<Notice>, l: Link<R>)
    requires LinkOk(log, l) && l.wire != [] && !l.fetching
    ensures LinkOk(log, AgentRead(l))
  {
    LastNoticeOfRest(l.wire);
  }

  lemma {:induction false} LastNoticeOfRest(wire: seq<WireMessage>)
    requires wire != []
    ensures LastNotice(wire) == if LastNotice(wire[1..]).Some? then LastNotice(wire[1..])
                                else if wire[0].ConfigChanged? then Some(wire[0].position)
                                else None
  {
    if |wire| > 1 && !wire[|wire| - 1].ConfigChanged? {
      assert wire[1..][..|wire| - 2] == wire[..|wire| - 1][1..];
      LastNoticeOfRest(wire[..|wire| - 1]);
    }
  }

  /** A fetch answered now is answered from the newest load, hence at least as new as anything handled. */
  lemma FetchDoneKeeps<R>(b: Bus<R>, l: Link<R>, reply: R)
    requires BusOk(b) && LinkOk(b.log, l)
    ensures LinkOk(b.log, FetchDone(l, Some(Answer(b.loads, reply))))
    ensures LinkOk(b.log, FetchDone(l, None))
  {
  }

  // -------------------------------------------------------------- main result

  /** The connection has nothing left to deliver and its agent is not in the middle of a fetch. */
  predicate Drained<R>(b: Bus<R>, id: string) {
    && id in b.links
    && b.links[id].cursor == |b.log| && b.links[id].wire == [] && !b.links[id].fetching
  }

  /** A settled connection lags by no more loads than still wait for their broadcast. */
  lemma DrainedAnswerIsRecent<R>(b: Bus<R>, id: string)
    requires BusOk(b) && Drained(b, id) && b.links[id].acked && b.links[id].answer.Some?
    ensures b.loads - |b.unannounced| <= b.links[id].answer.value.load <= b.loads
  {
    var l := b.links[id];
    assert LinkOk(b.log, l);
    assert l.handled == l.forwarded == l.cursor == |b.log|;
  }

  /**
   No lost update: with every reload announced, an acknowledged and drained connection whose last
   triggered fetch succeeded was answered from the newest load.
   */
  lemma DrainedAnswerIsNewest<R>(b: Bus<R>, id: string)
    requires BusOk(b) && b.unannounced == multiset{}
    requires Drained(b, id) && b.links[id].acked && b.links[id].answer.Some?
    ensures b.links[id].answer.value.load == b.loads
  {
    DrainedAnswerIsRecent(b, id);
  }
}
