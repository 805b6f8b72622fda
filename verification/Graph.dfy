/**
 The socket graph of one adb process: local and remote sockets joined by peer pointers, the active
 and closing lists, and one disconnect list per transport (src/sockets.c:50-142, 493-584).

 Sockets and transports live in an explicit store: a pointer is a key, and freeing an object
 removes its key. A function that meets a key without an object does nothing; that this never
 happens where the program follows a pointer without a test is `Safety.StepSafe`.
 */
module Graph {
  import opened Octets
  import Spec = SocketSpec
  import opened Lists

  type Ref = nat

  /** Ids run from 1 to 2^32 - 1 and then from 1 again. */
  const ID_CYCLE: nat := 0xffff_ffff

  datatype ConnState = Offline | Bootloader | Device | HostMode | Recovery | Sideload | NoPerm | Unauthorized

  datatype Wire =
    | Open(from: nat, to: nat, dest: string)
    | Okay(from: nat, to: nat)
    | Write(from: nat, to: nat, data: bytes)
    | Clse(from: nat, to: nat)
    | Sync(online: nat, token: nat)
    | Cnxn(banner: string)
    | Auth(kind: nat)
    | Hdsk(kind: nat, word: string)

  /** What to call when a transport goes away. */
  datatype Disconnect = OfSocket(r: Ref) | OfForward(name: string)

  /**
   History of a transport object: which one it is, as an address may be used again, and whether its
   input thread has left.
   */
  datatype Tenure = Tenure(birth: nat, left: bool)

  datatype Transport = Transport(state: ConnState, online: bool, disconnects: seq<Disconnect>, sent: seq<Wire>,
                                 tenure: Tenure)

  /** A socket bound to a descriptor. `ticket` counts the local sockets installed before it. */
  datatype Local = Local(id: nat, closing: bool, peer: Option<Ref>, transport: Option<Ref>,
                         queue: seq<bytes>, wantRead: bool, wantWrite: bool, awaiting: bool,
                         ticket: nat, got: bytes, out: seq<Spec.FdWrite>, ever: bool, fault: bool, lost: bool)

  /** A socket bound to the protocol engine. */
  datatype Remote = Remote(id: nat, peer: Ref, transport: Ref)

  /** A forward, or a smart socket listener when it has no transport; known by its local name. */
  datatype Listener = Listener(localName: string, connectTo: string, transport: Option<Ref>)

  /** The transport pointer that a client's smart socket keeps, and which object it was. */
  datatype Choice = Choice(transport: Ref, birth: nat)

  /** The clients that still talk to a smart socket, each with its choice, and how many transports there ever were. */
  datatype Front = Front(clients: map<Ref, Option<Choice>>, born: nat)

  /** `past` keeps the freed local sockets as they were last seen. */
  datatype Graph = Graph(nextId: nat, issued: nat, nextRef: Ref,
                         active: seq<Ref>, closing: seq<Ref>,
                         locals: map<Ref, Local>, remotes: map<Ref, Remote>,
                         transports: map<Ref, Transport>, listeners: seq<Listener>,
                         past: map<Ref, Spec.Sock>, front: Front)

  /** A local socket as `SocketSpec` sees it. */
  function AsSock(l: Local): Spec.Sock {
    Spec.Sock(if l.closing then Spec.Draining else if l.peer.Some? then Spec.Linked else Spec.Connecting,
              l.awaiting, l.wantRead, l.queue, l.got, l.out, l.ever, l.fault, l.lost)
  }

  function View(g: Graph, s: Ref): Spec.Sock {
    if s in g.locals then AsSock(g.locals[s]) else if s in g.past then g.past[s] else Spec.FreshSock
  }

  // ---- the graph ----

  /** A socket on the active list, and its link to a remote socket. */
  ghost predicate ActiveOk(g: Graph, s: Ref) {
    && s in g.locals
    && var l := g.locals[s];
    && !l.closing
    && l.id == l.ticket % ID_CYCLE + 1
    && (l.wantWrite <==> l.queue != [])
    && (l.peer.Some? ==> l.peer.value in g.remotes && g.remotes[l.peer.value].peer == s && l.ever && !l.awaiting)
  }

  /** A socket on the closing list. */
  ghost predicate ClosingOk(g: Graph, s: Ref) {
    && s in g.locals
    && var l := g.locals[s];
    && l.closing && l.id == 0 && l.peer.None? && l.queue != []
    && l.wantWrite && !l.wantRead && !l.awaiting
  }

  ghost predicate Listed(g: Graph) {
    && NoDup(g.active) && NoDup(g.closing)
    && (forall s :: s in g.active ==> ActiveOk(g, s))
    && (forall s :: s in g.closing ==> ClosingOk(g, s))
    && (forall s :: s in g.locals ==> s in g.active || s in g.closing)
  }

  /** A remote socket: linked to an active socket, and on its own transport's disconnect list. */
  ghost predicate RemoteOk(g: Graph, r: Ref)
    requires r in g.remotes
  {
    && var x := g.remotes[r];
    && x.id != 0
    && x.peer in g.locals && g.locals[x.peer].peer == Some(r)
    && x.transport in g.transports && OfSocket(r) in g.transports[x.transport].disconnects
  }

  ghost predicate Linked(g: Graph) {
    forall r :: r in g.remotes ==> RemoteOk(g, r)
  }

  ghost predicate Ids(g: Graph) {
    && g.nextId == g.issued % ID_CYCLE + 1
    && g.locals.Keys !! g.past.Keys
    && (forall s :: s in g.locals ==> g.locals[s].ticket < g.issued && s < g.nextRef)
    && (forall s :: s in g.past ==> s < g.nextRef)
    && (forall r :: r in g.remotes ==> r < g.nextRef)
    && (forall s, u :: s in g.locals && u in g.locals && g.locals[s].ticket == g.locals[u].ticket ==> s == u)
  }

  /** The disconnect list of a transport holds streams of that transport, each once. */
  ghost predicate TransportOk(g: Graph, t: Ref)
    requires t in g.transports
  {
    && var x := g.transports[t];
    && NoDup(x.disconnects)
    && (forall r :: OfSocket(r) in x.disconnects ==> r in g.remotes && g.remotes[r].transport == t)
  }

  ghost predicate Sessions(g: Graph) {
    forall t :: t in g.transports ==> TransportOk(g, t)
  }

  /** Only a linked socket has a backlog while it is active: draining it calls the peer. */
  ghost predicate Backed(g: Graph) {
    forall s :: s in g.active && s in g.locals && g.locals[s].queue != [] ==> g.locals[s].peer.Some?
  }

  /** Local names are distinct, and a forward is on its own transport's disconnect list. */
  ghost predicate Forwarded(g: Graph) {
    && (forall i, j :: 0 <= i < j < |g.listeners| ==> g.listeners[i].localName != g.listeners[j].localName)
    && (forall l :: l in g.listeners && l.transport.Some? ==>
          l.transport.value in g.transports && OfForward(l.localName) in g.transports[l.transport.value].disconnects)
    && (forall t, name :: t in g.transports && OfForward(name) in g.transports[t].disconnects ==>
          exists l :: l in g.listeners && l.localName == name && l.transport == Some(t))
  }

  ghost predicate Wired(g: Graph) {
    Listed(g) && Linked(g) && Ids(g) && Sessions(g) && Forwarded(g)
  }

  ghost predicate Core(g: Graph) {
    Wired(g) && Backed(g)
  }

  /** A transport owns streams and forwards only while online, and is then not offline. */
  ghost predicate SessionOk(x: Transport) {
    && (x.disconnects != [] ==> x.online)
    && (x.online ==> x.state != Offline && x.state != NoPerm)
    && (x.state != Offline && x.state != NoPerm && x.state != Unauthorized ==> x.online)
  }

  ghost predicate Online(g: Graph) {
    forall t :: t in g.transports ==> SessionOk(g.transports[t])
  }

  ghost predicate Valid(g: Graph) {
    Core(g) && Online(g)
  }

  // ---- primitive changes ----

  function SendOn(g: Graph, t: Ref, w: Wire): Graph
    requires t in g.transports
  {
    g.(transports := g.transports[t := g.transports[t].(sent := g.transports[t].sent + [w])])
  }

  /** s is linked to a remote socket on a transport. */
  predicate HasLink(g: Graph, s: Ref) {
    && s in g.locals && g.locals[s].peer.Some? && g.locals[s].peer.value in g.remotes
    && g.remotes[g.locals[s].peer.value].transport in g.transports
  }

  /** The transport of the stream that s is linked to. */
  function LinkOf(g: Graph, s: Ref): Ref
    requires HasLink(g, s)
  {
    g.remotes[g.locals[s].peer.value].transport
  }

  /** s and its remote peer forget each other; the remote one leaves its disconnect list and is freed. */
  function Unlink(g: Graph, s: Ref): Graph
    requires HasLink(g, s)
  {
    var r := g.locals[s].peer.value;
    var t := LinkOf(g, s);
    var x := g.transports[t];
    g.(locals := g.locals[s := g.locals[s].(peer := None)],
       remotes := g.remotes - {r},
       transports := g.transports[t := x.(disconnects := Without(x.disconnects, OfSocket(r)))])
  }

  /** local_socket_destroy. */
  function Bury(g: Graph, s: Ref): Graph
    requires s in g.locals
  {
    g.(active := Without(g.active, s), closing := Without(g.closing, s), locals := g.locals - {s},
       past := g.past[s := AsSock(g.locals[s]).(phase := Spec.Gone, queue := [], wantRead := false, awaiting := false)])
  }

  /** The socket moves to the closing list. */
  function Park(g: Graph, s: Ref): Graph
    requires s in g.locals
  {
    g.(active := Without(g.active, s), closing := g.closing + [s],
       locals := g.locals[s := g.locals[s].(closing := true, wantRead := false, awaiting := false, id := 0)])
  }

  /** Fields of s that no list or link depends on. */
  function Edit(g: Graph, s: Ref, l: Local): Graph {
    g.(locals := g.locals[s := l])
  }

  predicate SameLinks(l: Local, m: Local) {
    && l.id == m.id && l.closing == m.closing && l.peer == m.peer && l.ticket == m.ticket
    && (m.wantWrite <==> m.queue != [])
    && (m.awaiting ==> l.awaiting || (l.peer.None? && !l.closing)) && (l.ever ==> m.ever)
    && (l.closing ==> m.queue != [] && !m.wantRead)
  }

  lemma ForwardedFrame(g: Graph, h: Graph)
    requires Forwarded(g) && h.listeners == g.listeners && h.transports == g.transports
    ensures Forwarded(h)
  {
  }

  lemma SessionsFrame(g: Graph, h: Graph)
    requires Sessions(g) && h.remotes == g.remotes && h.transports == g.transports
    ensures Sessions(h)
  {
    forall t | t in h.transports ensures TransportOk(h, t) {
      assert TransportOk(g, t);
    }
  }

  /** Links do not depend on what an unlinked socket does. */
  lemma LinkedFrame(g: Graph, h: Graph, s: Ref)
    requires Linked(g) && s in g.locals && h.remotes == g.remotes && h.transports == g.transports
    requires forall u :: u != s && u in g.locals ==> u in h.locals && h.locals[u] == g.locals[u]
    requires g.locals[s].peer.None? || (s in h.locals && h.locals[s].peer == g.locals[s].peer)
    ensures Linked(h)
  {
    forall r | r in h.remotes ensures RemoteOk(h, r) {
      assert RemoteOk(g, r);
    }
  }

  /** The record of freed sockets matters only for which keys are taken. */
  lemma PastFrame(g: Graph, h: Graph)
    requires Core(g) && h == g.(past := h.past) && h.past.Keys == g.past.Keys
    ensures Core(h)
  {
    assert Listed(h) by {
      assert forall s :: s in g.active ==> ActiveOk(g, s) && ActiveOk(h, s);
      assert forall s :: s in g.closing ==> ClosingOk(g, s) && ClosingOk(h, s);
      hide Linked, Ids, Sessions, Forwarded, Backed, NoDup;
    }
    assert Linked(h) by {
      assert forall r :: r in g.remotes ==> RemoteOk(g, r) && RemoteOk(h, r);
      hide Listed, Ids, Sessions, Forwarded, Backed;
    }
    ForwardedFrame(g, h);
    SessionsFrame(g, h);
    hide Listed, Linked, Sessions, Forwarded;
  }

  /** Two graphs that differ only in the state of transports and what was sent on them. */
  ghost predicate SameLists(g: Graph, h: Graph) {
    && h == g.(transports := h.transports, front := h.front) && h.transports.Keys == g.transports.Keys
    && forall t :: t in g.transports ==> h.transports[t].disconnects == g.transports[t].disconnects
  }

  lemma ListedFrame(g: Graph, h: Graph)
    requires Listed(g) && SameLists(g, h)
    ensures Listed(h)
  {
    assert forall s :: s in g.active ==> ActiveOk(g, s) && ActiveOk(h, s);
    assert forall s :: s in g.closing ==> ClosingOk(g, s) && ClosingOk(h, s);
  }

  lemma LinkedSame(g: Graph, h: Graph)
    requires Linked(g) && SameLists(g, h)
    ensures Linked(h)
  {
    assert forall r :: r in g.remotes ==> RemoteOk(g, r) && RemoteOk(h, r);
  }

  lemma SessionsSame(g: Graph, h: Graph)
    requires Sessions(g) && SameLists(g, h)
    ensures Sessions(h)
  {
    assert forall t :: t in h.transports ==> TransportOk(g, t) && TransportOk(h, t);
  }

  lemma ForwardedSame(g: Graph, h: Graph)
    requires Forwarded(g) && SameLists(g, h)
    ensures Forwarded(h)
  {
  }

  lemma WiredSame(g: Graph, h: Graph)
    requires Wired(g) && SameLists(g, h)
    ensures Wired(h) && (Backed(g) ==> Backed(h))
  {
    ListedFrame(g, h);
    LinkedSame(g, h);
    SessionsSame(g, h);
    ForwardedSame(g, h);
    hide Listed, Linked, Sessions, Forwarded;
  }

  lemma SendOnWired(g: Graph, t: Ref, w: Wire)
    requires Wired(g) && t in g.transports
    ensures Wired(SendOn(g, t, w)) && (Backed(g) ==> Backed(SendOn(g, t, w)))
  {
    hide Wired, Backed;
    WiredSame(g, SendOn(g, t, w));
  }

  lemma UnlinkListed(g: Graph, s: Ref)
    requires Listed(g) && Linked(g) && HasLink(g, s)
    ensures Listed(Unlink(g, s))
  {
    hide Without;
  }

  lemma UnlinkLinked(g: Graph, s: Ref)
    requires Linked(g) && HasLink(g, s)
    ensures Linked(Unlink(g, s))
  {
    hide Without;
  }

  lemma UnlinkSessions(g: Graph, s: Ref)
    requires Linked(g) && Sessions(g) && HasLink(g, s)
    ensures Sessions(Unlink(g, s))
  {
    hide Without, Linked;
    WithoutNoDup(g.transports[LinkOf(g, s)].disconnects, OfSocket(g.locals[s].peer.value));
  }

  lemma UnlinkForwarded(g: Graph, s: Ref)
    requires Forwarded(g) && HasLink(g, s)
    ensures Forwarded(Unlink(g, s))
  {
    hide Without;
  }

  lemma UnlinkWired(g: Graph, s: Ref)
    requires Wired(g) && HasLink(g, s)
    ensures Wired(Unlink(g, s))
  {
    hide Listed, Linked, Sessions, Forwarded, Without;
    UnlinkListed(g, s);
    UnlinkLinked(g, s);
    UnlinkSessions(g, s);
    UnlinkForwarded(g, s);
  }

  lemma BuryListed(g: Graph, s: Ref)
    requires Listed(g) && s in g.locals && g.locals[s].peer.None?
    ensures Listed(Bury(g, s))
  {
    hide Without, NoDup;
    var h := Bury(g, s);
    WithoutNoDup(g.active, s);
    WithoutNoDup(g.closing, s);
    forall u | u in h.active ensures ActiveOk(h, u) {
      assert ActiveOk(g, u);
    }
    forall u | u in h.closing ensures ClosingOk(h, u) {
      assert ClosingOk(g, u);
    }
  }

  lemma BuryIds(g: Graph, s: Ref)
    requires Ids(g) && s in g.locals
    ensures Ids(Bury(g, s))
  {
    hide Without;
  }

  lemma BuryWired(g: Graph, s: Ref)
    requires Wired(g) && s in g.locals && g.locals[s].peer.None?
    ensures Wired(Bury(g, s))
  {
    BuryListed(g, s);
    BuryIds(g, s);
    ForwardedFrame(g, Bury(g, s));
    SessionsFrame(g, Bury(g, s));
    LinkedFrame(g, Bury(g, s), s);
    hide Forwarded, Ids, Sessions, Linked, Without, Listed;
  }

  lemma ParkListed(g: Graph, s: Ref)
    requires Listed(g) && s in g.locals && g.locals[s].peer.None? && g.locals[s].queue != [] && !g.locals[s].closing
    ensures Listed(Park(g, s))
  {
    hide Without, NoDup;
    var h := Park(g, s);
    assert s in g.active && s !in g.closing by {
      assert s in g.closing ==> ClosingOk(g, s);
    }
    assert g.locals[s].wantWrite by {
      assert ActiveOk(g, s);
    }
    WithoutNoDup(g.active, s);
    AppendNoDup(g.closing, s);
    forall u | u in h.active ensures ActiveOk(h, u) {
      assert ActiveOk(g, u);
    }
    forall u | u in h.closing ensures ClosingOk(h, u) {
      assert u != s ==> ClosingOk(g, u);
    }
  }

  /** The books of ids and keys do not depend on the other fields of a local socket. */
  lemma IdsFrame(g: Graph, h: Graph)
    requires Ids(g) && h.nextId == g.nextId && h.issued == g.issued && h.nextRef == g.nextRef
    requires h.past == g.past && h.remotes == g.remotes && h.locals.Keys == g.locals.Keys
    requires forall s :: s in g.locals ==> h.locals[s].ticket == g.locals[s].ticket
    ensures Ids(h)
  {
    assert forall s :: s in h.locals <==> s in g.locals;
  }

  lemma ParkWired(g: Graph, s: Ref)
    requires Wired(g) && s in g.locals && g.locals[s].peer.None? && g.locals[s].queue != [] && !g.locals[s].closing
    ensures Wired(Park(g, s))
  {
    hide Forwarded, Sessions, Linked, Without, Listed, Ids;
    ParkListed(g, s);
    ForwardedFrame(g, Park(g, s));
    SessionsFrame(g, Park(g, s));
    LinkedFrame(g, Park(g, s), s);
    IdsFrame(g, Park(g, s));
  }

  lemma EditListed(g: Graph, s: Ref, l: Local)
    requires Listed(g) && s in g.locals && SameLinks(g.locals[s], l)
    ensures Listed(Edit(g, s, l))
  {
  }

  lemma EditWired(g: Graph, s: Ref, l: Local)
    requires Wired(g) && s in g.locals && SameLinks(g.locals[s], l)
    ensures Wired(Edit(g, s, l))
  {
    hide Forwarded, Sessions, Linked, Listed, Ids;
    EditListed(g, s, l);
    ForwardedFrame(g, Edit(g, s, l));
    SessionsFrame(g, Edit(g, s, l));
    LinkedFrame(g, Edit(g, s, l), s);
    IdsFrame(g, Edit(g, s, l));
  }

  // ---- closing a local socket ----

  /** shutdown: the far side is told with CLOSE while the link still names both ids. */
  function Shutdown(g: Graph, s: Ref): Graph
    requires HasLink(g, s)
  {
    SendOn(g, LinkOf(g, s), Clse(g.locals[s].id, g.remotes[g.locals[s].peer.value].id))
  }

  /** The end of local_socket_close_locked: a backlog is drained first, unless it already was. */
  function Retire(g: Graph, s: Ref, fault: bool): Graph
    requires s in g.locals
  {
    var h := Edit(g, s, g.locals[s].(fault := g.locals[s].fault || fault));
    if g.locals[s].closing || g.locals[s].queue == [] then Bury(h, s) else Park(h, s)
  }

  function CloseLocked(g: Graph, s: Ref, fault: bool): Graph
    requires s in g.locals
  {
    Retire(if HasLink(g, s) then Unlink(Shutdown(g, s), s) else g, s, fault)
  }

  /** s->close(s), with the failure status while the client still awaits one. */
  function Close(g: Graph, s: Ref, fault: bool): Graph
    requires s in g.locals
  {
    var l := g.locals[s];
    CloseLocked(if l.awaiting then Edit(g, s, l.(awaiting := false, out := l.out + [Spec.FailStatus])) else g, s, fault)
  }

  /** remote_socket_disconnect: the stream goes without a CLOSE. */
  function Disconnected(g: Graph, s: Ref): Graph
    requires HasLink(g, s)
  {
    Close(Unlink(Marked(g, s), s), s, true)
  }

  /** The history of a socket whose transport has gone. */
  function Marked(g: Graph, s: Ref): Graph
    requires s in g.locals
  {
    Edit(g, s, g.locals[s].(lost := true))
  }

  /** The clients at the front and the transport objects are the same. */
  ghost predicate SameFront(g: Graph, h: Graph) {
    && h.front == g.front && h.transports.Keys == g.transports.Keys
    && forall t :: t in g.transports ==> h.transports[t].tenure == g.transports[t].tenure
  }

  /** Nothing but socket s, its link and what is sent on a transport differs. */
  ghost predicate Only(g: Graph, h: Graph, s: Ref) {
    && SameFront(g, h) && h.listeners == g.listeners
    && (forall u :: u != s && u in g.locals ==> u in h.locals && h.locals[u] == g.locals[u])
    && (forall u :: u != s && u in h.locals ==> u in g.locals)
    && (forall u :: u != s && u in g.past ==> u in h.past && h.past[u] == g.past[u])
    && (forall u :: u != s && u in h.past ==> u in g.past)
    && (forall r :: r in g.remotes && g.remotes[r].peer != s ==> r in h.remotes && h.remotes[r] == g.remotes[r])
    && (forall r :: r in h.remotes && h.remotes[r].peer != s ==> r in g.remotes && g.remotes[r] == h.remotes[r])
    && (forall t :: t in g.transports ==>
          h.transports[t].state == g.transports[t].state && h.transports[t].online == g.transports[t].online)
  }

  lemma LinkExists(g: Graph, s: Ref)
    requires Wired(g) && s in g.locals && g.locals[s].peer.Some?
    ensures HasLink(g, s) && g.remotes[g.locals[s].peer.value].peer == s && s in g.active
  {
    assert s in g.active ==> ActiveOk(g, s);
    assert s in g.closing ==> ClosingOk(g, s);
    assert RemoteOk(g, g.locals[s].peer.value);
    hide Sessions, Ids, Forwarded;
  }

  /** Fields that no link depends on may change as long as write interest follows the backlog. */
  lemma Editable(g: Graph, s: Ref, m: Local)
    requires Wired(g) && s in g.locals
    requires m == g.locals[s].(fault := m.fault, lost := m.lost, awaiting := m.awaiting, out := m.out, got := m.got)
    requires m.awaiting ==> g.locals[s].awaiting
    ensures SameLinks(g.locals[s], m)
  {
    assert s in g.active ==> ActiveOk(g, s);
    assert s in g.closing ==> ClosingOk(g, s);
    hide Linked, Sessions, Ids, Forwarded, NoDup;
  }

  lemma RetireWired(g: Graph, s: Ref, fault: bool)
    requires Wired(g) && s in g.locals && g.locals[s].peer.None?
    ensures Wired(Retire(g, s, fault))
  {
    hide Wired, Bury, Park;
    var l := g.locals[s].(fault := g.locals[s].fault || fault);
    Editable(g, s, l);
    EditWired(g, s, l);
    var h := Edit(g, s, l);
    if l.closing || l.queue == [] {
      BuryWired(h, s);
    } else {
      ParkWired(h, s);
    }
  }

  lemma RetireCore(g: Graph, s: Ref, fault: bool)
    requires Wired(g) && s in g.locals && g.locals[s].peer.None?
    requires forall u :: u != s && u in g.active && u in g.locals && g.locals[u].queue != [] ==> g.locals[u].peer.Some?
    ensures Core(Retire(g, s, fault))
  {
    hide Wired, Without;
    RetireWired(g, s, fault);
    var h := Retire(g, s, fault);
    forall u | u in h.active && u in h.locals && h.locals[u].queue != [] ensures h.locals[u].peer.Some? {
      assert u != s && u in g.active && h.locals[u] == g.locals[u];
    }
  }

  lemma CloseLockedCore(g: Graph, s: Ref, fault: bool)
    requires Core(g) && s in g.locals
    ensures Core(CloseLocked(g, s, fault))
  {
    hide Wired, Retire, Without;
    if g.locals[s].peer.Some? {
      LinkExists(g, s);
      SendOnWired(g, LinkOf(g, s), Clse(g.locals[s].id, g.remotes[g.locals[s].peer.value].id));
      UnlinkWired(Shutdown(g, s), s);
      RetireCore(Unlink(Shutdown(g, s), s), s, fault);
    } else {
      RetireCore(g, s, fault);
    }
  }

  lemma DisconnectedCore(g: Graph, s: Ref)
    requires Core(g) && HasLink(g, s)
    ensures Core(Disconnected(g, s))
  {
    hide Wired;
    var m := Marked(g, s);
    MarkedCore(g, s);
    LinkIsActive(m, s);
    UnlinkWired(m, s);
    RetireCore(Unlink(m, s), s, true);
  }

  lemma MarkedCore(g: Graph, s: Ref)
    requires Core(g) && HasLink(g, s)
    ensures Core(Marked(g, s)) && HasLink(Marked(g, s), s) && Only(g, Marked(g, s), s)
    ensures Marked(g, s).remotes == g.remotes && Marked(g, s).transports == g.transports
    ensures LinkOf(Marked(g, s), s) == LinkOf(g, s)
    ensures Marked(g, s).locals[s] == g.locals[s].(lost := true)
  {
    hide Wired, Only, SameLinks;
    var l := g.locals[s].(lost := true);
    Editable(g, s, l);
    EditWired(g, s, l);
    EditDoes(g, s, l);
  }

  /** What is sent: ws on transport t, nothing on any other. */
  ghost predicate Sends(g: Graph, h: Graph, t: Ref, ws: seq<Wire>) {
    && h.transports.Keys == g.transports.Keys
    && forall u :: u in g.transports ==>
         h.transports[u].sent == g.transports[u].sent + (if u == t then ws else [])
  }

  ghost predicate SendsNothing(g: Graph, h: Graph) {
    && h.transports.Keys == g.transports.Keys
    && forall u :: u in g.transports ==> h.transports[u].sent == g.transports[u].sent
  }

  lemma BuryDoes(g: Graph, s: Ref)
    requires s in g.locals
    ensures Only(g, Bury(g, s), s) && s !in Bury(g, s).locals
    ensures Bury(g, s).transports == g.transports && Bury(g, s).remotes == g.remotes
    ensures View(Bury(g, s), s) ==
            AsSock(g.locals[s]).(phase := Spec.Gone, queue := [], wantRead := false, awaiting := false)
  {
    hide Without, AsSock;
  }

  lemma ParkDoes(g: Graph, s: Ref)
    requires s in g.locals
    ensures Only(g, Park(g, s), s) && s in Park(g, s).locals
    ensures Park(g, s).transports == g.transports && Park(g, s).remotes == g.remotes
    ensures Park(g, s).locals[s].closing && Park(g, s).locals[s].peer == g.locals[s].peer
    ensures View(Park(g, s), s) == AsSock(g.locals[s]).(phase := Spec.Draining, wantRead := false, awaiting := false)
  {
    hide Without;
  }

  lemma EditDoes(g: Graph, s: Ref, l: Local)
    requires s in g.locals
    ensures Only(g, Edit(g, s, l), s)
  {
  }

  lemma RetireView(g: Graph, s: Ref, fault: bool)
    requires s in g.locals && g.locals[s].peer.None?
    ensures View(Retire(g, s, fault), s) == Spec.CloseLocked(View(g, s), fault).sock
  {
    hide Only, Bury, Park, AsSock, Spec.CloseLocked, View, Edit;
    var l := g.locals[s].(fault := g.locals[s].fault || fault);
    var e := Edit(g, s, l);
    Edited(g, s, l);
    ViewOf(g, s);
    RetiredSock(g.locals[s], fault);
    if l.closing || l.queue == [] {
      BuryDoes(e, s);
    } else {
      ParkDoes(e, s);
    }
  }

  lemma Edited(g: Graph, s: Ref, l: Local)
    ensures s in Edit(g, s, l).locals && Edit(g, s, l).locals[s] == l
  {
  }

  lemma ViewOf(g: Graph, s: Ref)
    requires s in g.locals
    ensures View(g, s) == AsSock(g.locals[s])
  {
  }

  lemma RetiredSock(l: Local, fault: bool)
    requires l.peer.None?
    ensures var x := AsSock(l.(fault := l.fault || fault));
            Spec.CloseLocked(AsSock(l), fault).sock ==
            if l.closing || l.queue == [] then x.(phase := Spec.Gone, queue := [], wantRead := false, awaiting := false)
            else x.(phase := Spec.Draining, wantRead := false, awaiting := false)
  {
  }

  lemma RetireDoes(g: Graph, s: Ref, fault: bool)
    requires s in g.locals && g.locals[s].peer.None?
    ensures var h := Retire(g, s, fault);
            && Only(g, h, s) && h.transports == g.transports && h.remotes == g.remotes
            && (s in h.locals ==> h.locals[s].peer.None? && h.locals[s].closing && !g.locals[s].closing)
            && View(h, s) == Spec.CloseLocked(View(g, s), fault).sock
  {
    hide Only, Bury, Park, View;
    RetireView(g, s, fault);
    var l := g.locals[s].(fault := g.locals[s].fault || fault);
    var e := Edit(g, s, l);
    EditDoes(g, s, l);
    BuryDoes(e, s);
    ParkDoes(e, s);
    OnlyTrans(g, e, Retire(g, s, fault), s);
  }

  lemma UnlinkDoes(g: Graph, s: Ref)
    requires HasLink(g, s) && g.remotes[g.locals[s].peer.value].peer == s
    ensures var h := Unlink(g, s);
            Only(g, h, s) && SendsNothing(g, h) && h.locals[s] == g.locals[s].(peer := None)
  {
    hide Without;
  }

  lemma OnlyTrans(g: Graph, h: Graph, k: Graph, s: Ref)
    requires Only(g, h, s) && Only(h, k, s)
    ensures Only(g, k, s)
  {
  }

  lemma ShutdownDoes(g: Graph, s: Ref)
    requires HasLink(g, s)
    ensures Only(g, Shutdown(g, s), s)
    ensures Sends(g, Shutdown(g, s), LinkOf(g, s), [Clse(g.locals[s].id, g.remotes[g.locals[s].peer.value].id)])
  {
  }

  lemma SeveredDoes(g: Graph, s: Ref)
    requires HasLink(g, s) && g.remotes[g.locals[s].peer.value].peer == s
    ensures HasLink(Shutdown(g, s), s)
    ensures var h := Unlink(Shutdown(g, s), s);
            && s in h.locals && Only(g, h, s) && h.locals[s] == g.locals[s].(peer := None)
            && Sends(g, h, LinkOf(g, s), [Clse(g.locals[s].id, g.remotes[g.locals[s].peer.value].id)])
  {
    ShutdownDoes(g, s);
    UnlinkDoes(Shutdown(g, s), s);
    OnlyTrans(g, Shutdown(g, s), Unlink(Shutdown(g, s), s), s);
    hide Unlink, Only;
  }

  /** Closing a socket does what `SocketSpec` says, tells the far side of a linked one, and no other changes. */
  lemma CloseLockedDoes(g: Graph, s: Ref, fault: bool)
    requires Core(g) && s in g.locals
    ensures var h := CloseLocked(g, s, fault);
            && Only(g, h, s)
            && View(h, s) == Spec.CloseLocked(View(g, s), fault).sock
            && (if g.locals[s].peer.Some? then
                  && HasLink(g, s)
                  && Sends(g, h, LinkOf(g, s), [Clse(g.locals[s].id, g.remotes[g.locals[s].peer.value].id)])
                else SendsNothing(g, h))
  {
    hide Wired, Backed, Without, Unlink, Retire, Only, Shutdown;
    if g.locals[s].peer.Some? {
      LinkExists(g, s);
      LinkIsActive(g, s);
      SeveredDoes(g, s);
      var h := Unlink(Shutdown(g, s), s);
      RetireDoes(h, s, fault);
      OnlyTrans(g, h, Retire(h, s, fault), s);
    } else {
      RetireDoes(g, s, fault);
    }
  }

  lemma LinkIsActive(g: Graph, s: Ref)
    requires Core(g) && s in g.locals && g.locals[s].peer.Some?
    ensures !g.locals[s].closing && !g.locals[s].awaiting && g.locals[s].ever
  {
    LinkExists(g, s);
    assert ActiveOk(g, s);
  }
}
