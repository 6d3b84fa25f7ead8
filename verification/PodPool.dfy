/**
 The pod discovery worker: a pool of CRI clients kept across jobs with changing socket selections,
 sandbox listings merged by pod UID, and PIDs resolved for what survives.

 Clients are identified by the socket they were dialed on.
 */
module PodPool {
  import opened Common
  import PidScan

  type Socket = string
  type Uid = string

  datatype Selection = Explicit(path: Socket) | All | FirstWins

  datatype DiscoveryError = NoSocket | AllListsFailed | RefreshTimeout | Transport

  const WELL_KNOWN_SOCKETS: seq<Socket> := [
    "/run/k3s/containerd/containerd.sock",
    "/run/containerd/containerd.sock",
    "/run/crio/crio.sock",
    "/run/cri-dockerd.sock"]

  /** One listed READY sandbox; `uid` is None when the runtime sent no metadata. */
  datatype Item = Item(uid: Option<Uid>, sandboxId: string, name: string, namespace: string)

  datatype Status = StatusFailed | HostNetwork | PodNetwork(hint: Option<nat>)

  /** A job's selection, and what the environment would answer while it runs. */
  datatype Job = Job(
    selection: Selection,
    existing: set<Socket>,
    reachable: set<Socket>,
    listings: map<Socket, seq<Item>>,
    statuses: map<(Socket, string), Status>,
    proc: PidScan.Proc,
    timesOut: bool)

  datatype PodInfo = PodInfo(uid: Uid, name: string, namespace: string, pid: nat)

  // ------------------------------------------------------------ the client pool

  function Keep(sockets: seq<Socket>, wanted: set<Socket>): (r: seq<Socket>)
    ensures forall s :: s in r <==> s in sockets && s in wanted
    ensures |r| <= |sockets|
  {
    if sockets == [] then []
    else
      var n := |sockets| - 1;
      var before := Keep(sockets[..n], wanted);
      if sockets[n] in wanted then before + [sockets[n]] else before
  }

  predicate Distinct<T(==)>(xs: seq<T>) {
    forall i, j :: 0 <= i < j < |xs| ==> xs[i] != xs[j]
  }

  lemma {:induction false} KeepDistinct(sockets: seq<Socket>, wanted: set<Socket>)
    requires Distinct(sockets)
    ensures Distinct(Keep(sockets, wanted))
  {
    if sockets != [] {
      var n := |sockets| - 1;
      KeepDistinct(sockets[..n], wanted);
      assert sockets[n] !in sockets[..n];
    }
  }

  lemma KeepLast(sockets: seq<Socket>, s: Socket, wanted: set<Socket>)
    ensures Keep(sockets + [s], wanted) == Keep(sockets, wanted) + (if s in wanted then [s] else [])
  {
    assert (sockets + [s])[..|sockets|] == sockets;
  }

  /** Keeping goes through the sockets one after the other and leaves their order alone. */
  lemma {:induction false} KeepConcat(a: seq<Socket>, b: seq<Socket>, wanted: set<Socket>)
    ensures Keep(a + b, wanted) == Keep(a, wanted) + Keep(b, wanted)
  {
    if b == [] {
      assert a + b == a;
    } else {
      var shorter, s := b[..|b| - 1], b[|b| - 1];
      var last := if s in wanted then [s] else [];
      assert b == shorter + [s];
      Regroup(a, shorter, [s]);
      KeepLast(a + shorter, s, wanted);
      KeepLast(shorter, s, wanted);
      KeepConcat(a, shorter, wanted);
      Regroup(Keep(a, wanted), Keep(shorter, wanted), last);
    }
  }

  lemma KeepFirst(sockets: seq<Socket>, wanted: set<Socket>)
    requires sockets != []
    ensures Keep(sockets, wanted) == (if sockets[0] in wanted then [sockets[0]] else []) + Keep(sockets[1..], wanted)
  {
    assert sockets == [sockets[0]] + sockets[1..];
    KeepConcat([sockets[0]], sockets[1..], wanted);
    assert [sockets[0]][..0] == [];
  }

  lemma {:induction false} KeepSame(sockets: seq<Socket>, wanted: set<Socket>, other: set<Socket>)
    requires forall s :: s in sockets ==> (s in wanted <==> s in other)
    ensures Keep(sockets, wanted) == Keep(sockets, other)
  {
    if sockets != [] {
      KeepSame(sockets[..|sockets| - 1], wanted, other);
    }
  }

  lemma {:induction false} KeepTwice(sockets: seq<Socket>, outer: set<Socket>, inner: set<Socket>)
    ensures Keep(Keep(sockets, inner), outer) == Keep(sockets, inner * outer)
  {
    if sockets != [] {
      var n := |sockets| - 1;
      KeepTwice(sockets[..n], outer, inner);
      if sockets[n] in inner {
        KeepConcat(Keep(sockets[..n], inner), [sockets[n]], outer);
        assert [sockets[n]][..0] == [];
      }
    }
  }

  /** `target_sockets`. */
  function TargetSockets(selection: Selection, existing: set<Socket>): seq<Socket> {
    if selection.Explicit? then [selection.path] else Keep(WELL_KNOWN_SOCKETS, existing)
  }

  lemma TargetsDistinct(selection: Selection, existing: set<Socket>)
    ensures Distinct(TargetSockets(selection, existing))
  {
    if !selection.Explicit? {
      var w := WELL_KNOWN_SOCKETS;
      assert w[0][5] == 'k' && w[1][5] == 'c' && w[2][5] == 'c' && w[3][5] == 'c';
      assert w[1][6] == 'o' && w[2][6] == 'r' && w[3][6] == 'r';
      assert w[2][8] == 'o' && w[3][8] == '-';
      assert Distinct(w);
      KeepDistinct(w, existing);
    }
  }

  function AsSet(sockets: seq<Socket>): set<Socket> {
    set s | s in sockets
  }

  datatype Dialed = Dialed(clients: seq<Socket>, error: Option<DiscoveryError>)

  /** The dialing loop from the `k`-th wanted socket on. */
  function DialFrom(selection: Selection, wanted: seq<Socket>, reachable: set<Socket>, clients: seq<Socket>, k: nat): Dialed
    requires k <= |wanted|
    decreases |wanted| - k
  {
    if k == |wanted| then Dialed(clients, if clients == [] then Some(NoSocket) else None)
    else if wanted[k] in clients then DialFrom(selection, wanted, reachable, clients, k + 1)
    else if wanted[k] in reachable then
      if selection.FirstWins? then Dialed(clients + [wanted[k]], None)
      else DialFrom(selection, wanted, reachable, clients + [wanted[k]], k + 1)
    else if selection.Explicit? then Dialed(clients, Some(Transport))
    else DialFrom(selection, wanted, reachable, clients, k + 1)
  }

  /** `ensure_clients`. */
  function Ensured(selection: Selection, existing: set<Socket>, reachable: set<Socket>, clients: seq<Socket>): Dialed {
    var wanted := TargetSockets(selection, existing);
    var kept := Keep(clients, AsSet(wanted));
    if selection.FirstWins? && kept != [] then Dialed(kept, None)
    else DialFrom(selection, wanted, reachable, kept, 0)
  }

  /** Pairwise distinct, and single for the selections that use one runtime. */
  predicate PoolOk(selection: Selection, clients: seq<Socket>) {
    Distinct(clients) && (!selection.All? ==> |clients| <= 1)
  }

  /** Dialing keeps the pool sound, adds only wanted reachable sockets, and keeps whoever was there. */
  lemma {:induction false} DialKeepsPool(selection: Selection, wanted: seq<Socket>, reachable: set<Socket>, clients: seq<Socket>, k: nat)
    requires k <= |wanted| && PoolOk(selection, clients) && Distinct(wanted)
    requires selection.FirstWins? ==> clients == []
    requires selection.Explicit? ==> |wanted| == 1 && (clients == [] || clients == wanted)
    ensures var d := DialFrom(selection, wanted, reachable, clients, k);
            && PoolOk(selection, d.clients)
            && (forall s :: s in clients ==> s in d.clients)
            && (forall s :: s in d.clients ==> s in clients || (s in wanted[k..] && s in reachable))
            && (d.error.None? ==> d.clients != [])
            && (selection.All? ==> forall s :: s in wanted[k..] && s in reachable ==> s in d.clients)
    decreases |wanted| - k
  {
    if k < |wanted| {
      assert wanted[k..] == [wanted[k]] + wanted[k + 1..];
      if wanted[k] in clients {
        DialKeepsPool(selection, wanted, reachable, clients, k + 1);
      } else if wanted[k] in reachable {
        if !selection.FirstWins? {
          DialKeepsPool(selection, wanted, reachable, clients + [wanted[k]], k + 1);
        }
      } else if !selection.Explicit? {
        DialKeepsPool(selection, wanted, reachable, clients, k + 1);
      }
    }
  }

  lemma EnsuredPool(selection: Selection, existing: set<Socket>, reachable: set<Socket>, clients: seq<Socket>)
    requires PoolOk(selection, clients)
    ensures PoolOk(selection, Ensured(selection, existing, reachable, clients).clients)
  {
    var wanted := TargetSockets(selection, existing);
    var kept := Keep(clients, AsSet(wanted));
    TargetsDistinct(selection, existing);
    KeepDistinct(clients, AsSet(wanted));
    if !(selection.FirstWins? && kept != []) {
      DialKeepsPool(selection, wanted, reachable, kept, 0);
      assert wanted[0..] == wanted;
    }
  }

  // ------------------------------------------------------- the outcome, exactly

  predicate Present(existing: set<Socket>, s: Socket) {
    s in WELL_KNOWN_SOCKETS && s in existing
  }

  /** The `i`-th well-known socket is the first that is there and can be reached. */
  predicate FirstToAnswer(existing: set<Socket>, reachable: set<Socket>, i: nat) {
    && i < |WELL_KNOWN_SOCKETS| && WELL_KNOWN_SOCKETS[i] in existing && WELL_KNOWN_SOCKETS[i] in reachable
    && forall j :: 0 <= j < i ==> !(WELL_KNOWN_SOCKETS[j] in existing && WELL_KNOWN_SOCKETS[j] in reachable)
  }

  /**
   Which sockets have a client once clients are ensured: the explicit one if it is pooled or can be reached; all
   well-known ones that are there and are pooled or can be reached; or a pooled one that is still there, and else
   the first to answer.
   */
  ghost predicate Gets(selection: Selection, existing: set<Socket>, reachable: set<Socket>, pooled: seq<Socket>, s: Socket) {
    match selection
    case Explicit(path) => s == path && (path in pooled || path in reachable)
    case All => Present(existing, s) && (s in pooled || s in reachable)
    case FirstWins =>
      if exists p :: p in pooled && Present(existing, p) then s in pooled && Present(existing, s)
      else exists i: nat :: FirstToAnswer(existing, reachable, i) && s == WELL_KNOWN_SOCKETS[i]
  }

  /** With every runtime queried, the pooled sockets stay in front and the new ones follow in their fixed order. */
  lemma {:induction false} DialAll(wanted: seq<Socket>, reachable: set<Socket>, clients: seq<Socket>, k: nat)
    requires k <= |wanted| && Distinct(wanted)
    ensures var all := clients + Keep(wanted[k..], reachable - AsSet(clients));
            DialFrom(All, wanted, reachable, clients, k) == Dialed(all, if all == [] then Some(NoSocket) else None)
    decreases |wanted| - k
  {
    if k < |wanted| {
      var x, rest := wanted[k], wanted[k + 1..];
      assert wanted[k..][0] == x && wanted[k..][1..] == rest;
      KeepFirst(wanted[k..], reachable - AsSet(clients));
      if x !in clients && x in reachable {
        DialAll(wanted, reachable, clients + [x], k + 1);
        KeepSame(rest, reachable - AsSet(clients), reachable - AsSet(clients + [x]));
        Regroup(clients, [x], Keep(rest, reachable - AsSet(clients)));
      } else {
        DialAll(wanted, reachable, clients, k + 1);
      }
    }
  }

  lemma EnsuredAll(existing: set<Socket>, reachable: set<Socket>, clients: seq<Socket>)
    ensures var d := Ensured(All, existing, reachable, clients);
            var kept := Keep(clients, existing * AsSet(WELL_KNOWN_SOCKETS));
            && d.clients == kept + Keep(WELL_KNOWN_SOCKETS, existing * (reachable - AsSet(kept)))
            && d.error == if d.clients == [] then Some(NoSocket) else None
  {
    var wanted := TargetSockets(All, existing);
    var kept := Keep(clients, AsSet(wanted));
    TargetsDistinct(All, existing);
    KeepSame(clients, AsSet(wanted), existing * AsSet(WELL_KNOWN_SOCKETS));
    DialAll(wanted, reachable, kept, 0);
    assert wanted[0..] == wanted;
    KeepTwice(WELL_KNOWN_SOCKETS, reachable - AsSet(kept), existing);
  }

  lemma EnsuredExplicit(path: Socket, existing: set<Socket>, reachable: set<Socket>, clients: seq<Socket>)
    requires PoolOk(Explicit(path), clients)
    ensures Ensured(Explicit(path), existing, reachable, clients)
         == if path in clients || path in reachable then Dialed([path], None) else Dialed([], Some(Transport))
  {
    var wanted := [path];
    var kept := Keep(clients, AsSet(wanted));
    assert kept == if path in clients then [path] else [];
    assert [] + [path] == [path];
    assert DialFrom(Explicit(path), wanted, reachable, [path], 1) == Dialed([path], None);
  }

  lemma FirstAmongPresent(existing: set<Socket>, reachable: set<Socket>, sockets: seq<Socket>)
    returns (i: nat)
    ensures var found := Keep(sockets, existing * reachable);
            if found == [] then forall j :: 0 <= j < |sockets| ==> !(sockets[j] in existing && sockets[j] in reachable)
            else && i < |sockets| && found[0] == sockets[i] && sockets[i] in existing && sockets[i] in reachable
                 && forall j :: 0 <= j < i ==> !(sockets[j] in existing && sockets[j] in reachable)
  {
    i := 0;
    if sockets != [] {
      KeepFirst(sockets, existing * reachable);
      if !(sockets[0] in existing && sockets[0] in reachable) {
        var k := FirstAmongPresent(existing, reachable, sockets[1..]);
        assert forall j :: 0 < j < |sockets| ==> sockets[j] == sockets[1..][j - 1];
        i := k + 1;
      }
    }
  }

  lemma {:induction false} DialFirst(wanted: seq<Socket>, reachable: set<Socket>, k: nat)
    requires k <= |wanted|
    ensures var found := Keep(wanted[k..], reachable);
            DialFrom(FirstWins, wanted, reachable, [], k)
            == if found == [] then Dialed([], Some(NoSocket)) else Dialed([found[0]], None)
    decreases |wanted| - k
  {
    if k < |wanted| {
      assert wanted[k..][0] == wanted[k] && wanted[k..][1..] == wanted[k + 1..];
      KeepFirst(wanted[k..], reachable);
      if wanted[k] in reachable {
        assert [] + [wanted[k]] == [wanted[k]];
      } else {
        DialFirst(wanted, reachable, k + 1);
      }
    }
  }

  lemma EnsuredFirst(existing: set<Socket>, reachable: set<Socket>, clients: seq<Socket>) returns (i: nat)
    requires PoolOk(FirstWins, clients)
    ensures var d := Ensured(FirstWins, existing, reachable, clients);
            if exists p :: p in clients && Present(existing, p) then d == Dialed(clients, None)
            else if FirstToAnswer(existing, reachable, i) then d == Dialed([WELL_KNOWN_SOCKETS[i]], None)
            else d == Dialed([], Some(NoSocket)) && forall j: nat :: !FirstToAnswer(existing, reachable, j)
  {
    var wanted := TargetSockets(FirstWins, existing);
    var kept := Keep(clients, AsSet(wanted));
    assert forall p :: p in AsSet(wanted) <==> Present(existing, p);
    i := FirstAmongPresent(existing, reachable, WELL_KNOWN_SOCKETS);
    if kept == [] {
      DialFirst(wanted, reachable, 0);
      assert wanted[0..] == wanted;
      KeepTwice(WELL_KNOWN_SOCKETS, reachable, existing);
    } else {
      assert |clients| == 1 && kept == clients;
    }
  }

  ghost predicate EnsuredAsSaid(selection: Selection, existing: set<Socket>, reachable: set<Socket>, clients: seq<Socket>, d: Dialed) {
    && (forall s :: s in d.clients <==> Gets(selection, existing, reachable, clients, s))
    && d.error == (if d.clients != [] then None else if selection.Explicit? then Some(Transport) else Some(NoSocket))
  }

  lemma AllAsSaid(existing: set<Socket>, reachable: set<Socket>, clients: seq<Socket>)
    ensures EnsuredAsSaid(All, existing, reachable, clients, Ensured(All, existing, reachable, clients))
  {
    EnsuredAll(existing, reachable, clients);
  }

  lemma OnlyFirst(existing: set<Socket>, reachable: set<Socket>, i: nat, j: nat)
    requires FirstToAnswer(existing, reachable, i) && FirstToAnswer(existing, reachable, j)
    ensures i == j
  {
  }

  lemma FirstIsGot(existing: set<Socket>, reachable: set<Socket>, clients: seq<Socket>, i: nat, s: Socket)
    requires !exists p :: p in clients && Present(existing, p)
    requires FirstToAnswer(existing, reachable, i)
    ensures Gets(FirstWins, existing, reachable, clients, s) <==> s == WELL_KNOWN_SOCKETS[i]
  {
    if Gets(FirstWins, existing, reachable, clients, s) {
      var j: nat :| FirstToAnswer(existing, reachable, j) && s == WELL_KNOWN_SOCKETS[j];
      OnlyFirst(existing, reachable, i, j);
    }
  }

  lemma PooledIsGot(existing: set<Socket>, reachable: set<Socket>, clients: seq<Socket>, s: Socket)
    requires |clients| <= 1 && exists p :: p in clients && Present(existing, p)
    ensures Gets(FirstWins, existing, reachable, clients, s) <==> s in clients
  {
    assert clients == [clients[0]];
  }

  lemma FirstAsSaid(existing: set<Socket>, reachable: set<Socket>, clients: seq<Socket>)
    requires PoolOk(FirstWins, clients)
    ensures EnsuredAsSaid(FirstWins, existing, reachable, clients, Ensured(FirstWins, existing, reachable, clients))
  {
    var d := Ensured(FirstWins, existing, reachable, clients);
    var i := EnsuredFirst(existing, reachable, clients);
    forall s
      ensures Gets(FirstWins, existing, reachable, clients, s) <==> s in d.clients
    {
      if exists p :: p in clients && Present(existing, p) {
        PooledIsGot(existing, reachable, clients, s);
      } else if FirstToAnswer(existing, reachable, i) {
        FirstIsGot(existing, reachable, clients, i, s);
      }
    }
  }

  /**
   When clients can be ensured: exactly if some socket gets one. The pool is then exactly those sockets, and
   otherwise it is empty and the error names the cause.
   */
  lemma EnsuredExactly(selection: Selection, existing: set<Socket>, reachable: set<Socket>, clients: seq<Socket>)
    requires PoolOk(selection, clients)
    ensures EnsuredAsSaid(selection, existing, reachable, clients, Ensured(selection, existing, reachable, clients))
  {
    match selection
    case Explicit(path) => EnsuredExplicit(path, existing, reachable, clients);
    case All => AllAsSaid(existing, reachable, clients);
    case FirstWins => FirstAsSaid(existing, reachable, clients);
  }

  // --------------------------------------------------------- merging listings

  datatype Sandbox = Sandbox(socket: Socket, sandboxId: string, name: string, namespace: string)

  type Sandboxes = map<Uid, Sandbox>

  function SandboxOf(socket: Socket, item: Item): Sandbox {
    Sandbox(socket, item.sandboxId, item.name, item.namespace)
  }

  /** `entry(uid).or_insert(..)` for the items of one client. */
  function MergeItems(m: Sandboxes, socket: Socket, items: seq<Item>): Sandboxes {
    if items == [] then m
    else
      var n := |items| - 1;
      var before := MergeItems(m, socket, items[..n]);
      if items[n].uid.None? || items[n].uid.value in before then before
      else before[items[n].uid.value := SandboxOf(socket, items[n])]
  }

  function MergeAll(clients: seq<Socket>, listings: map<Socket, seq<Item>>): Sandboxes {
    if clients == [] then map[]
    else
      var n := |clients| - 1;
      var before := MergeAll(clients[..n], listings);
      if clients[n] in listings then MergeItems(before, clients[n], listings[clients[n]]) else before
  }

  predicate ListsAt(items: seq<Item>, uid: Uid, j: nat) {
    j < |items| && items[j].uid == Some(uid)
  }

  predicate ListedBy(clients: seq<Socket>, listings: map<Socket, seq<Item>>, uid: Uid, i: nat) {
    i < |clients| && clients[i] in listings && exists j: nat :: j < |listings[clients[i]]| && ListsAt(listings[clients[i]], uid, j)
  }

  /** The sandbox is the first item for the UID in the listing of the earliest client that listed it. */
  ghost predicate FromEarliest(clients: seq<Socket>, listings: map<Socket, seq<Item>>, uid: Uid, sandbox: Sandbox, i: nat, j: nat) {
    && ListedBy(clients, listings, uid, i)
    && (forall e: nat :: e < i ==> !ListedBy(clients, listings, uid, e))
    && ListsAt(listings[clients[i]], uid, j)
    && (forall e: nat :: e < j ==> !ListsAt(listings[clients[i]], uid, e))
    && sandbox == SandboxOf(clients[i], listings[clients[i]][j])
  }

  lemma {:induction false} MergeItemsKeepsFirst(m: Sandboxes, socket: Socket, items: seq<Item>, uid: Uid) returns (j: nat)
    ensures var t := MergeItems(m, socket, items);
            && (uid in m ==> uid in t && t[uid] == m[uid])
            && (uid !in m && uid in t ==>
                  && ListsAt(items, uid, j) && (forall e: nat :: e < j ==> !ListsAt(items, uid, e))
                  && t[uid] == SandboxOf(socket, items[j]))
            && (uid !in t ==> forall e: nat :: e < |items| ==> !ListsAt(items, uid, e))
  {
    j := 0;
    if items != [] {
      var n := |items| - 1;
      j := MergeItemsKeepsFirst(m, socket, items[..n], uid);
      assert forall e: nat :: e < n ==> (ListsAt(items[..n], uid, e) <==> ListsAt(items, uid, e));
      if uid !in MergeItems(m, socket, items[..n]) {
        j := n;
      }
    }
  }

  /** Merging lists each UID exactly when some client did, and takes it from the earliest one. */
  lemma {:induction false} MergeTakesEarliest(clients: seq<Socket>, listings: map<Socket, seq<Item>>, uid: Uid)
    returns (i: nat, j: nat)
    ensures var m := MergeAll(clients, listings);
            if uid in m then FromEarliest(clients, listings, uid, m[uid], i, j)
            else forall e: nat :: e < |clients| ==> !ListedBy(clients, listings, uid, e)
  {
    i, j := 0, 0;
    if clients != [] {
      var n := |clients| - 1;
      i, j := MergeTakesEarliest(clients[..n], listings, uid);
      assert forall e: nat :: e < n ==> (ListedBy(clients[..n], listings, uid, e) <==> ListedBy(clients, listings, uid, e));
      var before := MergeAll(clients[..n], listings);
      if clients[n] in listings {
        var first := MergeItemsKeepsFirst(before, clients[n], listings[clients[n]], uid);
        if uid !in before && uid in MergeAll(clients, listings) {
          i, j := n, first;
        }
      }
    }
  }

  /** The client that listed a sandbox first is still pooled when its status is asked for. */
  lemma SandboxClientIsPooled(clients: seq<Socket>, listings: map<Socket, seq<Item>>, uid: Uid)
    requires uid in MergeAll(clients, listings)
    ensures MergeAll(clients, listings)[uid].socket in Keep(clients, listings.Keys)
  {
    var i, j := MergeTakesEarliest(clients, listings, uid);
  }

  // ------------------------------------------------------------ a whole refresh

  function Hints(job: Job, m: Sandboxes): map<Uid, Option<nat>> {
    map uid | uid in m && HasPodNetwork(job, m[uid]) :: job.statuses[(m[uid].socket, m[uid].sandboxId)].hint
  }

  predicate HasPodNetwork(job: Job, s: Sandbox) {
    (s.socket, s.sandboxId) in job.statuses && job.statuses[(s.socket, s.sandboxId)].PodNetwork?
  }

  function Survivors(job: Job, clients: seq<Socket>): seq<Socket> {
    Keep(clients, job.listings.Keys)
  }

  /** A sandbox that survived the host-network filter and waits for its PID. */
  datatype PodCandidate = PodCandidate(uid: Uid, name: string, namespace: string)

  function CandidateOf(m: Sandboxes, uid: Uid): PodCandidate
    requires uid in m
  {
    PodCandidate(uid, m[uid].name, m[uid].namespace)
  }

  function InfoFor(c: PodCandidate, pids: map<Uid, nat>): PodInfo
    requires c.uid in pids
  {
    PodInfo(c.uid, c.name, c.namespace, pids[c.uid])
  }

  /**
   The pods a refresh may answer with: each UID at most once, and exactly the merged sandboxes with
   their own network whose PID was resolved.
   */
  ghost predicate PodsOk(job: Job, clients: seq<Socket>, pods: seq<PodInfo>) {
    var m := MergeAll(clients, job.listings);
    var pids := PidScan.Resolved(job.proc, Hints(job, m));
    && (forall i, j :: 0 <= i < j < |pods| ==> pods[i].uid != pods[j].uid)
    && (forall p :: p in pods <==> p.uid in pids && p.uid in m && p == InfoFor(CandidateOf(m, p.uid), pids))
  }

  datatype Pool = Pool(clients: seq<Socket>, active: Option<Selection>)

  /** The clients a job starts with: none if the selection changed. */
  function Carried(p: Pool, job: Job): seq<Socket> {
    if p.active == Some(job.selection) then p.clients else []
  }

  function EnsuredFor(p: Pool, job: Job): Dialed {
    Ensured(job.selection, job.existing, job.reachable, Carried(p, job))
  }

  function AfterJob(p: Pool, job: Job): Pool {
    var d := EnsuredFor(p, job);
    Pool(if job.timesOut then [] else if d.error.Some? then d.clients else Survivors(job, d.clients),
         Some(job.selection))
  }

  ghost predicate AnswerOk(p: Pool, job: Job, r: Result<seq<PodInfo>, DiscoveryError>) {
    var d := EnsuredFor(p, job);
    if job.timesOut then r == Err(RefreshTimeout)
    else if d.error.Some? then r == Err(d.error.value)
    else if Survivors(job, d.clients) == [] then r == Err(AllListsFailed)
    else r.Ok? && PodsOk(job, d.clients, r.value)
  }

  ghost predicate PoolInv(p: Pool) {
    if p.active.None? then p.clients == [] else PoolOk(p.active.value, p.clients)
  }

  function RunJobs(jobs: seq<Job>): Pool {
    if jobs == [] then Pool([], None) else AfterJob(RunJobs(jobs[..|jobs| - 1]), jobs[|jobs| - 1])
  }

  lemma JobKeepsPool(p: Pool, job: Job)
    requires PoolInv(p)
    ensures PoolInv(AfterJob(p, job))
    ensures PoolOk(job.selection, EnsuredFor(p, job).clients)
  {
    EnsuredPool(job.selection, job.existing, job.reachable, Carried(p, job));
    KeepDistinct(EnsuredFor(p, job).clients, job.listings.Keys);
  }

  // ---------------------------------------------------------- the worker itself

  class Worker {
    var clients: seq<Socket>
    var active: Option<Selection>

    function View(): Pool
      reads this
    {
      Pool(clients, active)
    }

    constructor ()
      ensures View() == Pool([], None)
    {
      clients, active := [], None;
    }

    /** `Vec::retain`. */
    method Retain(wanted: set<Socket>)
      modifies this`clients
      ensures clients == Keep(old(clients), wanted)
    {
      var all := clients;
      clients := [];
      for i := 0 to |all|
        invariant clients == Keep(all[..i], wanted)
      {
        assert all[..i + 1][..i] == all[..i];
        if all[i] in wanted {
          clients := clients + [all[i]];
        }
      }
      assert all[..|all|] == all;
    }

    method EnsureClients(selection: Selection, existing: set<Socket>, reachable: set<Socket>)
      returns (error: Option<DiscoveryError>)
      modifies this`clients
      ensures PoolOk(selection, old(clients)) ==>
                EnsuredAsSaid(selection, existing, reachable, old(clients), Dialed(clients, error))
      ensures Dialed(clients, error) == Ensured(selection, existing, reachable, old(clients))
    {
      if PoolOk(selection, clients) {
        EnsuredExactly(selection, existing, reachable, clients);
      }
      var wanted := TargetSockets(selection, existing);
      Retain(AsSet(wanted));
      ghost var kept := clients;
      if selection.FirstWins? && clients != [] {
        return None;
      }
      for k := 0 to |wanted|
        invariant DialFrom(selection, wanted, reachable, clients, k) == DialFrom(selection, wanted, reachable, kept, 0)
      {
        var socket := wanted[k];
        if socket in clients {
          continue;
        }
        if socket in reachable {
          clients := clients + [socket];
          if selection.FirstWins? {
            return None;
          }
        } else if selection.Explicit? {
          return Some(Transport);
        }
      }
      return if clients == [] then Some(NoSocket) else None;
    }

    /** The listing loop: merges by UID and drops the clients that failed. */
    method ListSandboxes(listings: map<Socket, seq<Item>>) returns (sandboxes: Sandboxes)
      modifies this`clients
      ensures sandboxes == MergeAll(old(clients), listings)
      ensures clients == Keep(old(clients), listings.Keys)
    {
      sandboxes := map[];
      for i := 0 to |clients|
        invariant sandboxes == MergeAll(clients[..i], listings)
      {
        assert clients[..i + 1][..i] == clients[..i];
        if clients[i] in listings {
          var items := listings[clients[i]];
          ghost var before := sandboxes;
          for j := 0 to |items|
            invariant sandboxes == MergeItems(before, clients[i], items[..j])
          {
            assert items[..j + 1][..j] == items[..j];
            if items[j].uid.Some? && items[j].uid.value !in sandboxes {
              sandboxes := sandboxes[items[j].uid.value := SandboxOf(clients[i], items[j])];
            }
          }
          assert items[..|items|] == items;
        }
      }
      assert clients[..|clients|] == clients;
      Retain(listings.Keys);
    }

    method RefreshAsync(job: Job) returns (r: Result<seq<PodInfo>, DiscoveryError>)
      modifies this`clients
      ensures var d := Ensured(job.selection, job.existing, job.reachable, old(clients));
              && clients == (if d.error.Some? then d.clients else Survivors(job, d.clients))
              && (d.error.Some? ==> r == Err(d.error.value))
              && (d.error.None? && clients == [] ==> r == Err(AllListsFailed))
              && (d.error.None? && clients != [] ==> r.Ok? && PodsOk(job, d.clients, r.value))
    {
      var error := EnsureClients(job.selection, job.existing, job.reachable);
      if error.Some? {
        return Err(error.value);
      }
      ghost var pooled := clients;
      var sandboxes := ListSandboxes(job.listings);
      if clients == [] {
        return Err(AllListsFailed);
      }
      var pods := ResolvePods(job, sandboxes);
      return Ok(pods);
    }

    /** `worker_loop`, one job. A timeout abandons the refresh wherever it was. */
    method HandleJob(job: Job) returns (r: Result<seq<PodInfo>, DiscoveryError>)
      modifies this
      ensures View() == AfterJob(old(View()), job)
      ensures AnswerOk(old(View()), job, r)
    {
      if active != Some(job.selection) {
        clients := [];
        active := Some(job.selection);
      }
      r := RefreshAsync(job);
      if job.timesOut {
        clients := [];
        r := Err(RefreshTimeout);
      }
    }
  }

  /** The candidates that got a PID, in candidate order. */
  function PodsFrom(candidates: seq<PodCandidate>, pids: map<Uid, nat>): seq<PodInfo> {
    if candidates == [] then []
    else
      var n := |candidates| - 1;
      var before, c := PodsFrom(candidates[..n], pids), candidates[n];
      if c.uid in pids then before + [PodInfo(c.uid, c.name, c.namespace, pids[c.uid])] else before
  }

  ghost predicate OneEach(candidates: seq<PodCandidate>) {
    forall i, j :: 0 <= i < j < |candidates| ==> candidates[i].uid != candidates[j].uid
  }

  lemma {:induction false} PodsFromListsEachOnce(candidates: seq<PodCandidate>, pids: map<Uid, nat>)
    requires OneEach(candidates)
    ensures var pods := PodsFrom(candidates, pids);
            && (forall i, j :: 0 <= i < j < |pods| ==> pods[i].uid != pods[j].uid)
            && (forall p :: p in pods ==> p.uid in pids && p.pid == pids[p.uid] && PodCandidate(p.uid, p.name, p.namespace) in candidates)
            && (forall c :: c in candidates && c.uid in pids ==> InfoFor(c, pids) in pods)
  {
    if candidates != [] {
      var n := |candidates| - 1;
      var shorter, c := candidates[..n], candidates[n];
      PodsFromListsEachOnce(shorter, pids);
      assert candidates == shorter + [c];
      var before := PodsFrom(shorter, pids);
      forall i | 0 <= i < |before|
        ensures before[i].uid != c.uid
      {
        assert before[i] in before;
        assert PodCandidate(before[i].uid, before[i].name, before[i].namespace) in shorter;
      }
    }
  }

  /** The status loop and the PID resolution. */
  method ResolvePods(job: Job, sandboxes: Sandboxes) returns (pods: seq<PodInfo>)
    ensures var pids := PidScan.Resolved(job.proc, Hints(job, sandboxes));
            && (forall i, j :: 0 <= i < j < |pods| ==> pods[i].uid != pods[j].uid)
            && (forall p :: p in pods <==> p.uid in pids && p.uid in sandboxes && p == InfoFor(CandidateOf(sandboxes, p.uid), pids))
  {
    var candidates, hints := GatherCandidates(job, sandboxes);
    var pids := PidScan.ResolvePids(job.proc, hints);
    pods := [];
    for i := 0 to |candidates|
      invariant pods == PodsFrom(candidates[..i], pids)
    {
      assert candidates[..i + 1][..i] == candidates[..i];
      var c := candidates[i];
      if c.uid in pids {
        pods := pods + [PodInfo(c.uid, c.name, c.namespace, pids[c.uid])];
      }
    }
    assert candidates[..|candidates|] == candidates;
    PodsFromListsEachOnce(candidates, pids);
    forall p: PodInfo | p.uid in pids && p.uid in sandboxes && p == InfoFor(CandidateOf(sandboxes, p.uid), pids)
      ensures p in pods
    {
      assert p.uid in hints;
      assert CandidateOf(sandboxes, p.uid) in candidates;
    }
  }

  /** Asks every merged sandbox's own client for its status; the hash map is walked in arbitrary order. */
  method GatherCandidates(job: Job, sandboxes: Sandboxes)
    returns (candidates: seq<PodCandidate>, hints: map<Uid, Option<nat>>)
    ensures hints == Hints(job, sandboxes)
    ensures OneEach(candidates)
    ensures forall c :: c in candidates ==> c.uid in hints && c == CandidateOf(sandboxes, c.uid)
    ensures forall uid :: uid in hints ==> CandidateOf(sandboxes, uid) in candidates
  {
    candidates, hints := [], map[];
    var todo := sandboxes.Keys;
    while todo != {}
      invariant todo <= sandboxes.Keys
      invariant forall uid :: uid in hints <==> uid in Hints(job, sandboxes) && uid !in todo
      invariant forall uid :: uid in hints ==> hints[uid] == Hints(job, sandboxes)[uid]
      invariant OneEach(candidates)
      invariant forall c :: c in candidates ==> c.uid in hints && c == CandidateOf(sandboxes, c.uid)
      invariant forall uid :: uid in hints ==> CandidateOf(sandboxes, uid) in candidates
    {
      var uid :| uid in todo;
      todo := todo - {uid};
      var sandbox := sandboxes[uid];
      var key := (sandbox.socket, sandbox.sandboxId);
      if key in job.statuses && job.statuses[key].PodNetwork? {
        hints := hints[uid := job.statuses[key].hint];
        candidates := candidates + [PodCandidate(uid, sandbox.name, sandbox.namespace)];
      }
    }
  }

  // ----------------------------------------------------------------- main results

  /** After any sequence of jobs the pooled sockets are distinct, and single unless all runtimes are queried. */
  lemma {:induction false} PoolAlwaysOk(jobs: seq<Job>)
    ensures PoolInv(RunJobs(jobs))
  {
    if jobs != [] {
      PoolAlwaysOk(jobs[..|jobs| - 1]);
      JobKeepsPool(RunJobs(jobs[..|jobs| - 1]), jobs[|jobs| - 1]);
    }
  }

  /** The clients a job finds pooled: those its predecessor left, if that had the same selection. */
  function PooledFor(jobs: seq<Job>, job: Job): seq<Socket> {
    if jobs != [] && jobs[|jobs| - 1].selection == job.selection then RunJobs(jobs).clients else []
  }

  lemma CarriedIsPooled(jobs: seq<Job>, job: Job)
    ensures Carried(RunJobs(jobs), job) == PooledFor(jobs, job)
    ensures PoolOk(job.selection, PooledFor(jobs, job))
  {
    PoolAlwaysOk(jobs);
  }

  ghost predicate HasClient(jobs: seq<Job>, job: Job, s: Socket) {
    Gets(job.selection, job.existing, job.reachable, PooledFor(jobs, job), s)
  }

  lemma JobEnsures(jobs: seq<Job>, job: Job)
    ensures var d := EnsuredFor(RunJobs(jobs), job);
            && (forall s :: s in d.clients <==> HasClient(jobs, job, s))
            && d.error == (if d.clients != [] then None else if job.selection.Explicit? then Some(Transport) else Some(NoSocket))
  {
    CarriedIsPooled(jobs, job);
    EnsuredExactly(job.selection, job.existing, job.reachable, PooledFor(jobs, job));
  }

  /** Which clients a job leaves pooled: none if it timed out, else exactly those that could be had and listed. */
  lemma PooledExactly(jobs: seq<Job>, job: Job, s: Socket)
    ensures s in RunJobs(jobs + [job]).clients <==> !job.timesOut && HasClient(jobs, job, s) && s in job.listings
  {
    assert (jobs + [job])[..|jobs|] == jobs;
    JobEnsures(jobs, job);
  }

  /**
   When a job is answered, over any sequence of jobs: exactly if it does not time out and some socket that gets a
   client lists its sandboxes. Otherwise the error tells which of the three steps failed.
   */
  lemma AnsweredExactly(jobs: seq<Job>, job: Job, r: Result<seq<PodInfo>, DiscoveryError>)
    requires AnswerOk(RunJobs(jobs), job, r)
    ensures if job.timesOut then r == Err(RefreshTimeout)
            else if !exists s :: HasClient(jobs, job, s)
            then r == Err(if job.selection.Explicit? then Transport else NoSocket)
            else if !exists s :: HasClient(jobs, job, s) && s in job.listings then r == Err(AllListsFailed)
            else r.Ok?
  {
    JobEnsures(jobs, job);
    var clients := EnsuredFor(RunJobs(jobs), job).clients;
    if clients != [] {
      assert HasClient(jobs, job, clients[0]);
      var left := Survivors(job, clients);
      if left != [] {
        assert left[0] in clients && left[0] in job.listings;
      }
    }
  }

  /** The first item for the UID, in the listing of the first client that has one. */
  ghost predicate FirstListing(clients: seq<Socket>, listings: map<Socket, seq<Item>>, uid: Uid, i: nat, j: nat) {
    && i < |clients| && clients[i] in listings
    && j < |listings[clients[i]]| && listings[clients[i]][j].uid == Some(uid)
    && (forall e :: 0 <= e < j ==> listings[clients[i]][e].uid != Some(uid))
    && forall c :: 0 <= c < i && clients[c] in listings ==>
         forall e :: 0 <= e < |listings[clients[c]]| ==> listings[clients[c]][e].uid != Some(uid)
  }

  lemma EarliestIsFirst(clients: seq<Socket>, listings: map<Socket, seq<Item>>, uid: Uid, i: nat, j: nat)
    requires uid in MergeAll(clients, listings)
    requires FromEarliest(clients, listings, uid, MergeAll(clients, listings)[uid], i, j)
    ensures FirstListing(clients, listings, uid, i, j)
    ensures var item := listings[clients[i]][j];
            MergeAll(clients, listings)[uid] == Sandbox(clients[i], item.sandboxId, item.name, item.namespace)
  {
    var items := listings[clients[i]];
    forall e | 0 <= e < j
      ensures items[e].uid != Some(uid)
    {
      assert !ListsAt(items, uid, e);
    }
    forall c, e | 0 <= c < i && clients[c] in listings && 0 <= e < |listings[clients[c]]|
      ensures listings[clients[c]][e].uid != Some(uid)
    {
      assert !ListedBy(clients, listings, uid, c);
      assert !ListsAt(listings[clients[c]], uid, e);
    }
  }

  /** Somebody among the clients lists the UID. */
  ghost predicate Listed(clients: seq<Socket>, listings: map<Socket, seq<Item>>, uid: Uid) {
    exists s, e :: s in clients && s in listings && 0 <= e < |listings[s]| && listings[s][e].uid == Some(uid)
  }

  lemma ListedIsMerged(clients: seq<Socket>, listings: map<Socket, seq<Item>>, uid: Uid) returns (i: nat, j: nat)
    ensures uid in MergeAll(clients, listings) <==> Listed(clients, listings, uid)
    ensures uid in MergeAll(clients, listings) ==>
              && FirstListing(clients, listings, uid, i, j)
              && var item := listings[clients[i]][j];
                 MergeAll(clients, listings)[uid] == Sandbox(clients[i], item.sandboxId, item.name, item.namespace)
  {
    i, j := MergeTakesEarliest(clients, listings, uid);
    if uid in MergeAll(clients, listings) {
      EarliestIsFirst(clients, listings, uid, i, j);
      assert clients[i] in clients;
    } else if Listed(clients, listings, uid) {
      var s, e :| s in clients && s in listings && 0 <= e < |listings[s]| && listings[s][e].uid == Some(uid);
      var c :| 0 <= c < |clients| && clients[c] == s;
      assert ListsAt(listings[clients[c]], uid, e);
      assert ListedBy(clients, listings, uid, c);
    }
  }

  /** The process a pod is answered with: the runtime's hint if it can stand for the pod, else the first entry that can. */
  ghost predicate PidOf(proc: PidScan.Proc, uid: Uid, hint: Option<nat>, pid: nat) {
    if hint.Some? && PidScan.Stands(proc, hint.value, uid) then pid == hint.value
    else exists k :: 0 <= k < |proc.names| && PidScan.StandsAt(proc, uid, k) && proc.names[k].value == pid
                     && forall e :: 0 <= e < k ==> !PidScan.StandsAt(proc, uid, e)
  }

  lemma ResolvedIsPidOf(proc: PidScan.Proc, hints: map<Uid, Option<nat>>, uid: Uid, pid: nat)
    requires uid in hints
    ensures uid in PidScan.Resolved(proc, hints) && PidScan.Resolved(proc, hints)[uid] == pid
       <==> PidOf(proc, uid, hints[uid], pid)
  {
    var k := PidScan.ResolvedExactly(proc, hints, uid);
  }

  /**
   Which pods a refresh answers with, each once: a UID that some client lists, with the name and namespace of its
   first listing, if that sandbox has a network of its own and a process can stand for it; and no other.
   */
  lemma PodsExactly(jobs: seq<Job>, job: Job, r: Result<seq<PodInfo>, DiscoveryError>, uid: Uid) returns (i: nat, j: nat)
    requires AnswerOk(RunJobs(jobs), job, r) && r.Ok?
    ensures forall k, l :: 0 <= k < l < |r.value| ==> r.value[k].uid != r.value[l].uid
    ensures var clients := EnsuredFor(RunJobs(jobs), job).clients;
            if !Listed(clients, job.listings, uid) then forall pod :: pod in r.value ==> pod.uid != uid
            else
              && FirstListing(clients, job.listings, uid, i, j)
              && var item := job.listings[clients[i]][j];
                 var key := (clients[i], item.sandboxId);
                 forall pod :: pod in r.value && pod.uid == uid <==>
                   && key in job.statuses && job.statuses[key].PodNetwork?
                   && pod == PodInfo(uid, item.name, item.namespace, pod.pid)
                   && PidOf(job.proc, uid, job.statuses[key].hint, pod.pid)
  {
    var clients := EnsuredFor(RunJobs(jobs), job).clients;
    var m := MergeAll(clients, job.listings);
    i, j := ListedIsMerged(clients, job.listings, uid);
    if uid in m && HasPodNetwork(job, m[uid]) {
      forall pid: nat
        ensures uid in PidScan.Resolved(job.proc, Hints(job, m)) && PidScan.Resolved(job.proc, Hints(job, m))[uid] == pid
           <==> PidOf(job.proc, uid, Hints(job, m)[uid], pid)
      {
        ResolvedIsPidOf(job.proc, Hints(job, m), uid, pid);
      }
    }
  }
}
