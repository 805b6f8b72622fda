/**
 Every run of the host process: whatever arrives, in whatever order, the socket graph and the sessions
 stay valid, every socket moves only as `SocketSpec` says, and a client that asked for a device gets
 at most one status.
 */
module Runs {
  import opened Octets
  import Spec = SocketSpec
  import opened Lists
  import opened Graph
  import opened Handlers
  import opened Isolation
  import opened Forwards
  import Pumps

  datatype Event =
    | Register(t: Ref, noPerm: bool)
    | Unregister(t: Ref)
    | Accept(name: string, c: Ref)
    | Choose(c: Ref, t: Ref)
    | Ask(c: Ref, dest: string)
    | Quit(c: Ref)
    | GetOpen(t: Ref, from: nat, to: nat, accept: bool)
    | GetOkay(t: Ref, from: nat, to: nat)
    | GetClose(t: Ref, from: nat, to: nat)
    | GetWrite(t: Ref, from: nat, to: nat, data: bytes, env: seq<Spec.WriteResult>)
    | GetSync(t: Ref, arg0: nat, token: nat)
    | GetConnect(t: Ref, banner: string)
    | GetAuth(t: Ref, kind: nat, reply: Option<Wire>)
    | GetHandshake(t: Ref, kind: nat)
    | CanWrite(s: Ref, env: seq<Spec.WriteResult>)
    | CanRead(s: Ref, incoming: seq<Spec.ReadResult>)
    | HangUp(s: Ref)
    | InputExits(t: Ref)
    | AddForward(name: string, connectTo: string, t: Ref, noRebind: bool, bound: bool)
    | KillForward(name: string, t: Ref)
    | KillAllForwards

  // ---- transports and new clients ----

  /** A device appears: no stream yet, and offline or out of reach, in which case it has no threads. */
  function Registered(g: Graph, t: Ref, noPerm: bool): Graph {
    var x := Transport(if noPerm then NoPerm else Offline, false, [], [], Tenure(g.front.born, noPerm));
    g.(transports := g.transports[t := x], front := g.front.(born := g.front.born + 1))
  }

  /** The removal of a transport: its callbacks run, then it is freed. */
  function Unregistered(g: Graph, t: Ref): Graph
    requires t in g.transports
  {
    var h := RunAll(g, g.transports[t].disconnects);
    h.(transports := h.transports - {t})
  }

  /** A client's request is handed to a device: OPEN is sent, and the client may be owed a status. */
  function Dialled(g: Graph, t: Ref, awaiting: bool, dest: string): Graph
    requires t in g.transports
  {
    var s := g.nextRef;
    var i := Install(g);
    SendOn(Edit(i, s, i.locals[s].(awaiting := awaiting, transport := Some(t))), t, Open(g.nextId, 0, dest))
  }

  function WithClients(g: Graph, clients: map<Ref, Option<Choice>>): Graph {
    g.(front := g.front.(clients := clients))
  }

  /**
   A connection to listener `name` is accepted: by the server's own one a client that gets a smart
   socket, by a forward one that is handed to the device of the forward.
   */
  function Accepted(g: Graph, name: string, c: Ref): Graph {
    match Lookup(g.listeners, name)
    case None => g
    case Some(l) =>
      if Smart(l) then WithClients(g, g.front.clients[c := None])
      else if l.transport.Some? && l.transport.value in g.transports then
        Dialled(g, l.transport.value, false, l.connectTo)
      else g
  }

  /** host:transport: the smart socket keeps the pointer, and nothing else does. */
  function Chosen(g: Graph, c: Ref, t: Ref): Graph
    requires t in g.transports
  {
    WithClients(g, g.front.clients[c := Some(Choice(t, g.transports[t].tenure.birth))])
  }

  /** Whether a request of client c gets to a device; the pointer kept is tested for null only. */
  predicate Dials(g: Graph, c: Ref) {
    && c in g.front.clients && g.front.clients[c].Some?
    && g.front.clients[c].value.transport in g.transports
    && g.transports[g.front.clients[c].value.transport].state != Offline
  }

  /** A request for a device: handed over with the client, or refused; the smart socket is done in either case. */
  function Asked(g: Graph, c: Ref, dest: string): Graph {
    var h := WithClients(g, g.front.clients - {c});
    if Dials(g, c) then Dialled(h, g.front.clients[c].value.transport, true, dest) else h
  }

  /** The input thread's way out. */
  function InputGone(g: Graph, t: Ref): Graph
    requires t in g.transports
  {
    var h := CloseAll(g, t);
    if t in h.transports then
      h.(transports := h.transports[t := h.transports[t].(tenure := h.transports[t].tenure.(left := true))])
    else h
  }

  /** Only transports that own nothing come or go. */
  ghost predicate SameOwners(g: Graph, h: Graph) {
    && h == g.(transports := h.transports, front := h.front)
    && (forall u :: u in h.transports && h.transports[u].disconnects != [] ==>
          u in g.transports && g.transports[u] == h.transports[u])
    && (forall u :: u in g.transports && g.transports[u].disconnects != [] ==>
          u in h.transports && h.transports[u] == g.transports[u])
  }

  lemma OwnersLinked(g: Graph, h: Graph)
    requires Linked(g) && SameOwners(g, h)
    ensures Linked(h)
  {
    assert forall r :: r in g.remotes ==> RemoteOk(g, r) && RemoteOk(h, r);
  }

  lemma OwnersSessions(g: Graph, h: Graph)
    requires Sessions(g) && SameOwners(g, h)
    ensures Sessions(h)
  {
    forall u | u in h.transports ensures TransportOk(h, u) {
      if h.transports[u].disconnects != [] {
        assert TransportOk(g, u);
      }
    }
  }

  lemma OwnersForwarded(g: Graph, h: Graph)
    requires Forwarded(g) && SameOwners(g, h)
    ensures Forwarded(h)
  {
  }

  lemma OwnersCore(g: Graph, h: Graph)
    requires Core(g) && SameOwners(g, h)
    ensures Core(h)
  {
    hide Listed, Linked, Sessions;
    ListsFrame(g, h);
    OwnersLinked(g, h);
    OwnersSessions(g, h);
    OwnersForwarded(g, h);
  }

  lemma RegisteredValid(g: Graph, t: Ref, noPerm: bool)
    requires Valid(g) && t !in g.transports
    ensures Valid(Registered(g, t, noPerm))
  {
    hide Core;
    OwnersCore(g, Registered(g, t, noPerm));
  }

  /** No remote socket and no listener leads to t. A smart socket may: its pointer is on no list. */
  ghost predicate Unreferred(g: Graph, t: Ref) {
    && t !in g.transports
    && (forall r :: r in g.remotes ==> g.remotes[r].transport != t)
    && (forall l :: l in g.listeners ==> l.transport != Some(t))
  }

  /** Its streams are closed and its forwards dropped before a transport is freed; the rest stands. */
  lemma UnregisteredValid(g: Graph, t: Ref)
    requires Valid(g) && t in g.transports
    ensures var k := RunAll(g, g.transports[t].disconnects);
            Away(g, k, t) && Purged(g, k, t) && Unregistered(g, t) == k.(transports := k.transports - {t})
    ensures Valid(Unregistered(g, t)) && Unreferred(Unregistered(g, t), t)
  {
    hide Core, RunAll, Away;
    var k := RunAll(g, g.transports[t].disconnects);
    RunAllDoes(g, t, g.transports[t].disconnects);
    AwayPurges(g, k, t);
    NothingLeft(k, t);
    hide Purged;
    OwnersCore(k, Unregistered(g, t));
  }

  /** A socket that still waits for READY is not on the list: it stays, and its field names what was freed. */
  lemma WaitingOutlives(g: Graph, t: Ref, s: Ref)
    requires Valid(g) && t in g.transports && s in g.locals && g.locals[s].peer.None?
    ensures s in Unregistered(g, t).locals && Unregistered(g, t).locals[s] == g.locals[s]
  {
    hide Valid, RunAll;
    UnregisteredValid(g, t);
  }

  lemma DialledValid(g: Graph, t: Ref, awaiting: bool, dest: string)
    requires Valid(g) && t in g.transports
    ensures var h := Dialled(g, t, awaiting, dest);
            && Valid(h) && Only(g, h, g.nextRef) && View(h, g.nextRef) == Spec.DialSock(awaiting)
            && g.nextRef !in g.locals && g.nextRef !in g.past
  {
    FreshRef(g);
    InstallDoes(g);
    var s := g.nextRef;
    var i := Install(g);
    var l := i.locals[s].(awaiting := awaiting, transport := Some(t));
    var e := Edit(i, s, l);
    hide Core, Online, Only;
    EditCore(i, s, l);
    assert e.transports == i.transports;
    OnlineFrame(i, e);
    SendOnValid(e, t, Open(g.nextId, 0, dest), s);
    OnlyTrans(g, i, e, s);
    OnlyTrans(g, e, SendOn(e, t, Open(g.nextId, 0, dest)), s);
  }

  lemma OnlineFrame(g: Graph, h: Graph)
    requires Online(g) && h.transports == g.transports
    ensures Online(h)
  {
  }

  // ---- steps ----

  /** The states of a transport that acquire_one_transport hands out. */
  predicate Usable(s: ConnState) {
    s != Offline && s != NoPerm && s != Unauthorized
  }

  /**
   When the READ half runs: with read interest; on a bit that was pending when a socket lost its
   interest by moving to the closing list; and on one that was faked for a bad descriptor, which
   gives no data. `FdEvent.NoStale` says why there is no other way.
   */
  predicate MayRead(l: Local, incoming: seq<Spec.ReadResult>) {
    l.wantRead || l.closing || Spec.ReadUp(MAX_PAYLOAD, incoming).0 == []
  }

  ghost predicate Can(g: Graph, e: Event) {
    match e
    case Register(t, _) => t !in g.transports
    case Unregister(t) => t in g.transports && g.transports[t].tenure.left
    case Accept(name, c) => Lookup(g.listeners, name).Some? && c !in g.front.clients
    case Choose(c, t) => c in g.front.clients && t in g.transports && Usable(g.transports[t].state)
    case Ask(c, _) => c in g.front.clients
    case Quit(c) => c in g.front.clients
    case CanWrite(s, _) => s in g.locals && g.locals[s].wantWrite
    case CanRead(s, incoming) => s in g.locals && MayRead(g.locals[s], incoming)
    case HangUp(s) => s in g.locals
    case AddForward(_, connectTo, t, _, _) =>
      t in g.transports && Usable(g.transports[t].state) && connectTo != "" && connectTo[0] != '*'
    case KillForward(_, t) => t in g.transports && Usable(g.transports[t].state)
    case KillAllForwards => true
    case InputExits(t) => t in g.transports && !g.transports[t].tenure.left
    case GetAuth(t, _, reply) => t in g.transports && (reply.Some? ==> reply.value.Auth?)
    case _ => e.t in g.transports
  }

  function After(g: Graph, e: Event): Graph
    requires Can(g, e)
  {
    match e
    case Register(t, noPerm) => Registered(g, t, noPerm)
    case Unregister(t) => Unregistered(g, t)
    case Accept(name, c) => Accepted(g, name, c)
    case Choose(c, t) => Chosen(g, c, t)
    case Ask(c, dest) => Asked(g, c, dest)
    case Quit(c) => WithClients(g, g.front.clients - {c})
    case GetOpen(t, from, to, accept) => OnOpen(g, t, from, to, accept)
    case GetOkay(t, from, to) => OnOkay(g, t, from, to)
    case GetClose(t, from, to) => OnClse(g, t, from, to)
    case GetWrite(t, from, to, data, env) => OnWrite(g, t, from, to, data, env)
    case GetSync(t, arg0, token) => OnSync(g, t, arg0, token)
    case GetConnect(t, banner) => OnCnxn(g, t, banner)
    case GetAuth(t, kind, reply) => OnAuth(g, t, kind, reply)
    case GetHandshake(t, kind) => OnHdsk(g, t, kind)
    case CanWrite(s, env) => Writable(g, s, env)
    case CanRead(s, incoming) => Readable(g, s, incoming)
    case HangUp(s) => Close(g, s, true)
    case InputExits(t) => InputGone(g, t)
    case AddForward(name, connectTo, t, noRebind, bound) => InstallListener(g, name, connectTo, t, noRebind, bound).0
    case KillForward(name, _) => RemoveListener(g, name).0
    case KillAllForwards => RemoveAll(g, g.listeners)
  }

  /** What a packet on transport t is to a run. */
  function PacketEvent(t: Ref, w: Wire, accept: bool, env: seq<Spec.WriteResult>, reply: Option<Wire>): Event {
    match w
    case Open(from, to, _) => GetOpen(t, from, to, accept)
    case Okay(from, to) => GetOkay(t, from, to)
    case Write(from, to, data) => GetWrite(t, from, to, data, env)
    case Clse(from, to) => GetClose(t, from, to)
    case Sync(online, token) => GetSync(t, online, token)
    case Cnxn(banner) => GetConnect(t, banner)
    case Auth(kind) => GetAuth(t, kind, reply)
    case Hdsk(kind, _) => GetHandshake(t, kind)
  }

  /** Each packet is handled by the handler of its command, with its own arguments. */
  lemma PacketMeans(g: Graph, t: Ref, w: Wire, accept: bool, env: seq<Spec.WriteResult>, reply: Option<Wire>)
    requires t in g.transports && (reply.Some? ==> reply.value.Auth?)
    ensures Can(g, PacketEvent(t, w, accept, env, reply))
    ensures var h := After(g, PacketEvent(t, w, accept, env, reply));
            match w
            case Open(from, to, _) => h == OnOpen(g, t, from, to, accept)
            case Okay(from, to) => h == OnOkay(g, t, from, to)
            case Write(from, to, data) => h == OnWrite(g, t, from, to, data, env)
            case Clse(from, to) => h == OnClse(g, t, from, to)
            case Sync(online, token) => h == OnSync(g, t, online, token)
            case Cnxn(banner) => h == OnCnxn(g, t, banner)
            case Auth(kind) => h == OnAuth(g, t, kind, reply)
            case Hdsk(kind, _) => h == OnHdsk(g, t, kind)
  {
    hide OnOpen, OnOkay, OnWrite, OnClse, OnSync, OnCnxn, OnAuth, OnHdsk;
  }

  /** What every reachable state satisfies. */
  ghost predicate Good(g: Graph) {
    Valid(g) && HasForwards(g) && Born(g)
  }

  /** The objects there are have been made, each in its turn. */
  ghost predicate Born(g: Graph) {
    forall t :: t in g.transports ==> g.transports[t].tenure.birth < g.front.born
  }

  /** The listeners, the clients at the front and the transport objects are the same. */
  ghost predicate Beside(g: Graph, h: Graph) {
    h.listeners == g.listeners && SameFront(g, h)
  }

  /** How one socket may change in one step. */
  ghost predicate Moves(a: Spec.Sock, b: Spec.Sock) {
    || b == a
    || (Spec.Active(a) && b == Spec.OnOkay(a))
    || (a.phase.Linked? && exists d, env :: b == Spec.OnWrite(a, d, env).sock)
    || (a.queue != [] && exists env :: b == Spec.OnWritable(a, env).sock)
    || (a.phase.Linked? && exists env :: b == Spec.OnReadable(a, env).sock)
    || ((Spec.Active(a) || a.phase.Draining?) && exists fault :: b == Spec.Close(a, fault).sock)
    || ((Spec.Active(a) || a.phase.Draining?) && exists fault :: b == Spec.CloseLocked(a, fault).sock)
    || (a.phase.Linked? && b == Spec.Lost(a))
  }

  predicate Known(g: Graph, u: Ref) {
    u in g.locals || u in g.past
  }

  /** Every known socket stays known and moves as it may; a dead one never changes. */
  ghost predicate AllMove(g: Graph, h: Graph) {
    forall u :: Known(g, u) ==>
      Known(h, u) && Moves(View(g, u), View(h, u)) && (u !in g.locals ==> u !in h.locals && View(h, u) == View(g, u))
  }

  lemma MovesOn(a: Spec.Sock, b: Spec.Sock)
    requires Moves(a, b) && !a.phase.Fresh?
    ensures !b.phase.Fresh?
  {
    hide Spec.OnWrite, Spec.OnWritable, Spec.OnReadable;
    forall d, env ensures !Spec.OnWrite(a, d, env).sock.phase.Fresh? {
      WriteOn(a, d, env);
    }
    forall env ensures !Spec.OnWritable(a, env).sock.phase.Fresh? {
      WritableOn(a, env);
    }
    forall env ensures !Spec.OnReadable(a, env).sock.phase.Fresh? {
      ReadableOn(a, env);
    }
  }

  lemma WriteOn(a: Spec.Sock, d: bytes, env: seq<Spec.WriteResult>)
    requires !a.phase.Fresh?
    ensures !Spec.OnWrite(a, d, env).sock.phase.Fresh?
  {
    hide Spec.FirstWrite;
  }

  lemma WritableOn(a: Spec.Sock, env: seq<Spec.WriteResult>)
    requires !a.phase.Fresh?
    ensures !Spec.OnWritable(a, env).sock.phase.Fresh?
  {
    hide Spec.DrainQueue, Spec.Close;
    forall t: Spec.Sock, fault | !t.phase.Fresh? ensures !Spec.Close(t, fault).sock.phase.Fresh? {
      CloseOn(t, fault);
    }
  }

  lemma CloseOn(a: Spec.Sock, fault: bool)
    ensures !Spec.Close(a, fault).sock.phase.Fresh?
  {
  }

  lemma ReadableOn(a: Spec.Sock, env: seq<Spec.ReadResult>)
    requires !a.phase.Fresh?
    ensures !Spec.OnReadable(a, env).sock.phase.Fresh?
  {
    hide Spec.ReadUp;
  }

  lemma OnlyViews(g: Graph, h: Graph, s: Ref, u: Ref)
    requires Only(g, h, s) && u != s && Known(g, u)
    ensures Known(h, u) && View(h, u) == View(g, u) && (u !in g.locals ==> u !in h.locals)
  {
  }

  /** A step on one live socket. */
  lemma OneMoves(g: Graph, h: Graph, s: Ref)
    requires Only(g, h, s) && s in g.locals && Moves(View(g, s), View(h, s))
    ensures AllMove(g, h)
  {
    hide Only, Moves;
    MovesOn(View(g, s), View(h, s));
    forall u | Known(g, u) && u != s
      ensures Known(h, u) && View(h, u) == View(g, u) && (u !in g.locals ==> u !in h.locals)
    {
      OnlyViews(g, h, s, u);
    }
    SelfMoves();
  }

  lemma SelfMoves()
    ensures forall a :: Moves(a, a)
  {
  }

  /** A step that makes a new socket. */
  lemma NewMoves(g: Graph, h: Graph, s: Ref)
    requires Only(g, h, s) && !Known(g, s)
    ensures AllMove(g, h)
  {
    hide Only, Moves;
    SelfMoves();
    forall u | Known(g, u)
      ensures Known(h, u) && View(h, u) == View(g, u) && (u !in g.locals ==> u !in h.locals)
    {
      OnlyViews(g, h, s, u);
    }
  }

  lemma StillMoves(g: Graph, h: Graph)
    requires h.locals == g.locals && h.past == g.past
    ensures AllMove(g, h)
  {
    hide Moves;
    SelfMoves();
  }

  lemma ThenStill(g: Graph, h: Graph, k: Graph)
    requires AllMove(g, h) && k.locals == h.locals && k.past == h.past
    ensures AllMove(g, k)
  {
    hide Moves;
    assert forall u :: View(k, u) == View(h, u);
  }

  /** What a transport's callbacks do to sockets. */
  lemma AwayMoves(g: Graph, h: Graph, t: Ref)
    requires Core(g) && Away(g, h, t)
    ensures AllMove(g, h)
  {
    forall u | Known(g, u)
      ensures Known(h, u) && Moves(View(g, u), View(h, u))
      ensures u !in g.locals ==> u !in h.locals && View(h, u) == View(g, u)
    {
      if u in g.locals && !Stands(g, h, u) {
        FallMoves(g, h, u);
      } else {
        hide Core, OnLink;
      }
    }
    hide Core, Moves;
  }

  lemma FallMoves(g: Graph, h: Graph, u: Ref)
    requires Core(g) && u in g.locals && HasLink(g, u) && Falls(g, h, u)
    ensures Known(h, u) && Moves(View(g, u), View(h, u))
  {
    LinkIsActive(g, u);
    hide Core;
  }

  // ---- each event ----

  lemma ListenersKept(g: Graph, h: Graph)
    requires HasForwards(g) && forall l :: l in h.listeners ==> l in g.listeners
    ensures HasForwards(h)
  {
    hide Smart;
  }

  lemma OkayMoves(g: Graph, t: Ref, from: nat, to: nat)
    requires Valid(g) && t in g.transports
    ensures var h := OnOkay(g, t, from, to); AllMove(g, h) && Beside(g, h)
  {
    hide Valid, Moves, Only, FindIn, OnOkay, Spec.OnOkay;
    OkayDoes(g, t, from, to);
    StillMoves(g, g);
    var h := OnOkay(g, t, from, to);
    if h != g {
      var s := Find(g, to, 0).value;
      FoundActive(g, s);
      OkayIsMove(View(g, s));
      OneMoves(g, h, s);
      OnlyLists(g, h, s);
    }
  }

  lemma OkayIsMove(a: Spec.Sock)
    requires Spec.Active(a)
    ensures Moves(a, Spec.OnOkay(a))
  {
  }

  lemma CloseIsMove(a: Spec.Sock, fault: bool)
    requires Spec.Active(a) || a.phase.Draining?
    ensures Moves(a, Spec.Close(a, fault).sock) && Moves(a, Spec.CloseLocked(a, fault).sock)
  {
    hide Spec.Close, Spec.CloseLocked;
  }

  lemma FoundActive(g: Graph, s: Ref)
    requires Valid(g) && s in g.active
    ensures s in g.locals && Spec.Active(View(g, s))
  {
    ActiveHere(g, s);
    hide Valid;
  }

  lemma OnlyLists(g: Graph, h: Graph, s: Ref)
    requires Only(g, h, s)
    ensures Beside(g, h)
  {
  }

  lemma CloseMoves(g: Graph, t: Ref, from: nat, to: nat)
    requires Valid(g) && t in g.transports
    ensures var h := OnClse(g, t, from, to); AllMove(g, h) && Beside(g, h)
  {
    hide Valid, Moves, Only, FindIn, OnClse, Spec.Close;
    ClseDoes(g, t, from, to);
    StillMoves(g, g);
    var h := OnClse(g, t, from, to);
    if h != g {
      var s := Find(g, to, from).value;
      FoundActive(g, s);
      CloseIsMove(View(g, s), false);
      OneMoves(g, h, s);
      OnlyLists(g, h, s);
    }
  }

  lemma WriteIsMove(a: Spec.Sock, data: bytes, env: seq<Spec.WriteResult>)
    requires a.phase.Linked?
    ensures Moves(a, Spec.OnWrite(a, data, env).sock)
  {
    hide Spec.OnWrite;
  }

  lemma WriteMoves(g: Graph, t: Ref, from: nat, to: nat, data: bytes, env: seq<Spec.WriteResult>)
    requires Valid(g) && t in g.transports
    ensures var h := OnWrite(g, t, from, to, data, env); AllMove(g, h) && Beside(g, h)
  {
    hide Valid, Moves, Only, FindIn, OnWrite, Spec.OnWrite, Sends, SaidAll;
    StillMoves(g, g);
    WriteDoes(g, t, from, to, data, env);
    if g.transports[t].online && from != 0 && to != 0 && Find(g, to, from).Some? {
      var s := Find(g, to, from).value;
      FoundIsLinked(g, to, from);
      WriteIsMove(View(g, s), data, env);
      OneMoves(g, OnWrite(g, t, from, to, data, env), s);
      OnlyLists(g, OnWrite(g, t, from, to, data, env), s);
    }
  }

  lemma OpenMoves(g: Graph, t: Ref, from: nat, to: nat, accept: bool)
    requires Valid(g) && t in g.transports
    ensures var h := OnOpen(g, t, from, to, accept); AllMove(g, h) && Beside(g, h)
  {
    FreshRef(g);
    hide Valid, Moves, Only, OnOpen;
    OpenDoes(g, t, from, to, accept);
    StillMoves(g, g);
    var h := OnOpen(g, t, from, to, accept);
    if h != g {
      NewMoves(g, h, g.nextRef);
      OnlyLists(g, h, g.nextRef);
    }
  }

  lemma WritableIsMove(a: Spec.Sock, env: seq<Spec.WriteResult>)
    requires a.queue != []
    ensures Moves(a, Spec.OnWritable(a, env).sock)
  {
    hide Spec.OnWritable;
  }

  lemma ReadableIsMove(a: Spec.Sock, env: seq<Spec.ReadResult>)
    requires a.phase.Linked?
    ensures Moves(a, Spec.OnReadable(a, env).sock)
  {
    hide Spec.OnReadable;
  }

  /** Write interest is held by linked sockets with a backlog and by closing ones. */
  lemma WantsWrite(g: Graph, s: Ref)
    requires Valid(g) && s in g.locals && g.locals[s].wantWrite
    ensures g.locals[s].queue != [] && (s in g.closing || HasLink(g, s))
  {
    if s in g.active {
      ActiveHere(g, s);
    } else {
      ClosingFields(g, s);
    }
  }

  lemma WritableMoves(g: Graph, s: Ref, env: seq<Spec.WriteResult>)
    requires Valid(g) && s in g.locals && g.locals[s].wantWrite
    ensures var h := Writable(g, s, env); Valid(h) && AllMove(g, h) && Beside(g, h)
  {
    hide Valid, Moves, Only, Writable, Spec.OnWritable, Sends, SaidAll, SendsNothing;
    WantsWrite(g, s);
    WritableIsMove(View(g, s), env);
    if s in g.closing {
      WritableClosing(g, s, env);
    } else {
      WritableLinked(g, s, env);
    }
    OneMoves(g, Writable(g, s, env), s);
    OnlyLists(g, Writable(g, s, env), s);
  }

  lemma AliveOpen(g: Graph, s: Ref)
    requires Valid(g) && s in g.locals
    ensures Spec.Active(View(g, s)) || View(g, s).phase.Draining?
    ensures HasLink(g, s) ==> View(g, s).phase.Linked?
  {
    if s in g.active {
      FoundActive(g, s);
      ActiveHere(g, s);
    } else {
      ClosingFields(g, s);
    }
  }

  /** s->close(s), whatever the socket is doing. */
  lemma HangUpMoves(g: Graph, s: Ref)
    requires Valid(g) && s in g.locals
    ensures var h := Close(g, s, true); Valid(h) && AllMove(g, h) && Beside(g, h)
  {
    hide Valid, Moves, Only, Spec.Close, Sends, SendsNothing, Close;
    AliveOpen(g, s);
    CloseDoes(g, s, true);
    CloseIsMove(View(g, s), true);
    OneMoves(g, Close(g, s, true), s);
    OnlyLists(g, Close(g, s, true), s);
  }

  /** Reading where there is no far side: the end of the file closes the socket. */
  lemma ReadableUnlinked(g: Graph, s: Ref, env: seq<Spec.ReadResult>)
    requires s in g.locals && !HasLink(g, s)
    ensures Readable(g, s, env) == if Spec.ReadUp(MAX_PAYLOAD, env).1 then Close(g, s, true) else g
  {
    hide Close, Spec.ReadUp;
  }

  lemma ReadableMoves(g: Graph, s: Ref, env: seq<Spec.ReadResult>)
    requires Valid(g) && s in g.locals
    ensures var h := Readable(g, s, env); Valid(h) && AllMove(g, h) && Beside(g, h)
  {
    hide Valid, Moves, Only, Readable, Spec.OnReadable, Spec.ReadUp, Sends, SaidAll, Close;
    AliveOpen(g, s);
    StillMoves(g, g);
    var h := Readable(g, s, env);
    if HasLink(g, s) {
      ReadableLinked(g, s, env);
      ReadableIsMove(View(g, s), env);
      OneMoves(g, h, s);
      OnlyLists(g, h, s);
    } else {
      ReadableUnlinked(g, s, env);
      HangUpMoves(g, s);
    }
  }

  /** As `Beside`, but listeners may have gone. */
  ghost predicate Within(g: Graph, h: Graph) {
    (forall l :: l in h.listeners ==> l in g.listeners) && SameFront(g, h)
  }

  lemma OfflineMoves(g: Graph, t: Ref)
    requires Valid(g) && t in g.transports
    ensures var h := GoOffline(g, t); AllMove(g, h) && Within(g, h)
  {
    hide Core, RunAll, Moves, AllMove, Stands, Falls, OnLink;
    var e := SetState(g, t, Offline, false);
    SetStateCore(g, t, Offline, false);
    RunAllDoes(e, t, g.transports[t].disconnects);
    AwayMoves(e, RunAll(e, g.transports[t].disconnects), t);
    StillThen(g, e, RunAll(e, g.transports[t].disconnects));
  }

  lemma StillThen(g: Graph, h: Graph, k: Graph)
    requires AllMove(h, k) && h.locals == g.locals && h.past == g.past
    ensures AllMove(g, k)
  {
    hide Moves;
    assert forall u :: View(g, u) == View(h, u);
  }

  lemma SyncMoves(g: Graph, t: Ref, arg0: nat, token: nat)
    requires Valid(g) && t in g.transports
    ensures var h := OnSync(g, t, arg0, token);
            Valid(h) && AllMove(g, h) && Within(g, h)
  {
    hide Valid, Moves, AllMove, Purged;
    if arg0 != 0 {
      SyncUpKeeps(g, t, arg0, token);
      StillMoves(g, OnSync(g, t, arg0, token));
    } else {
      SyncPurges(g, t, token);
      OfflineMoves(g, t);
      hide GoOffline;
      ThenStill(g, GoOffline(g, t), OnSync(g, t, 0, token));
    }
  }

  lemma ConnectMoves(g: Graph, t: Ref, banner: string)
    requires Valid(g) && t in g.transports
    ensures var h := OnCnxn(g, t, banner);
            Valid(h) && AllMove(g, h) && Within(g, h)
  {
    hide Valid, Moves, AllMove, Purged, GoOffline;
    CnxnPurges(g, t, banner);
    OfflineMoves(g, t);
    StillMoves(g, g);
    ThenStill(g, if g.transports[t].state != Offline then GoOffline(g, t) else g, OnCnxn(g, t, banner));
  }

  lemma UnregisterMoves(g: Graph, t: Ref)
    requires Valid(g) && t in g.transports
    ensures var h := Unregistered(g, t);
            && Valid(h) && AllMove(g, h) && (forall l :: l in h.listeners ==> l in g.listeners)
            && h.front == g.front && h.transports.Keys == g.transports.Keys - {t}
            && forall u :: u in h.transports ==> h.transports[u].tenure == g.transports[u].tenure
  {
    hide Core, Moves, RunAll, AllMove, Online;
    UnregisteredValid(g, t);
    var h := RunAll(g, g.transports[t].disconnects);
    AwayMoves(g, h, t);
    ThenStill(g, h, Unregistered(g, t));
  }

  // ---- the input thread's way out ----

  lemma CloseListedStep(g: Graph, t: Ref)
    requires Valid(g)
    ensures match FirstOn(g, g.active, t)
            case None => CloseListed(g, t) == g
            case Some(s) =>
              var k := CloseLocked(g, s, true);
              && CloseListed(g, t) == CloseListed(k, t) && Valid(k) && Only(g, k, s) && |k.active| < |g.active|
              && k.active == Without(g.active, s) && View(k, s) == Spec.CloseLocked(View(g, s), true).sock
  {
    hide Valid, CloseLocked, FirstOn, Only, Without;
    match FirstOn(g, g.active, t)
    case None =>
    case Some(s) =>
      CloseLockedOnline(g, s, true);
      CoreOf(g);
      CloseLockedDoes(g, s, true);
      CloseShrinks(g, s, true);
  }

  /** close_all_sockets leaves a socket alone or closes it once. */
  lemma {:induction false} CloseListedViews(g: Graph, t: Ref, u: Ref)
    requires Valid(g) && Known(g, u)
    ensures var h := CloseListed(g, t);
            && Known(h, u) && (u !in g.locals ==> u !in h.locals)
            && (u !in g.active ==> View(h, u) == View(g, u))
            && Moves(View(g, u), View(h, u))
    decreases |g.active|
  {
    hide Valid, CloseLocked, FirstOn, Only, Without, Moves, CloseListed, Spec.CloseLocked;
    SelfMoves();
    CloseListedStep(g, t);
    match FirstOn(g, g.active, t)
    case None =>
    case Some(s) =>
      var k := CloseLocked(g, s, true);
      FoundActive(g, s);
      CloseIsMove(View(g, s), true);
      if u == s {
        MovesOn(View(g, s), View(k, s));
      } else {
        OnlyViews(g, k, s, u);
      }
      CloseListedViews(k, t, u);
  }

  lemma {:induction false} CloseListedLists(g: Graph, t: Ref)
    requires Valid(g)
    ensures CloseListed(g, t).listeners == g.listeners
    decreases |g.active|
  {
    hide Valid, CloseLocked, FirstOn, Only, Without, CloseAll;
    CloseListedStep(g, t);
    match FirstOn(g, g.active, t)
    case None =>
    case Some(s) =>
      OnlyLists(g, CloseLocked(g, s, true), s);
      CloseListedLists(CloseLocked(g, s, true), t);
  }

  lemma InputMoves(g: Graph, t: Ref)
    requires Valid(g) && t in g.transports
    ensures var h := InputGone(g, t);
            && Valid(h) && AllMove(g, h) && h.listeners == g.listeners
            && h.front == g.front.(clients := Unchosen(g.front.clients, t)) && h.transports.Keys == g.transports.Keys
            && (forall u :: u in g.transports && u != t ==> h.transports[u].tenure == g.transports[u].tenure)
            && h.transports[t].tenure == g.transports[t].tenure.(left := true)
  {
    hide Valid, Moves, CloseListed, AllMove;
    var k := CloseListed(g, t);
    var h := InputGone(g, t);
    CloseListedDoes(g, t);
    CloseListedLists(g, t);
    CloseListedMoves(g, t);
    LeftValid(k, h);
    ThenStill(g, k, h);
  }

  lemma CloseListedMoves(g: Graph, t: Ref)
    requires Valid(g)
    ensures AllMove(g, CloseListed(g, t))
  {
    hide Valid, Moves, CloseListed;
    forall u | Known(g, u)
      ensures var h := CloseListed(g, t);
              && Known(h, u) && Moves(View(g, u), View(h, u))
              && (u !in g.locals ==> u !in h.locals && View(h, u) == View(g, u))
    {
      CloseListedViews(g, t, u);
      if u in g.active {
        FoundActive(g, u);
      }
    }
  }

  /** Neither the clients at the front nor the history of a transport matter to the graph. */
  lemma LeftValid(g: Graph, h: Graph)
    requires Valid(g) && SameLists(g, h)
    requires forall t :: t in g.transports ==>
               h.transports[t].state == g.transports[t].state && h.transports[t].online == g.transports[t].online
    ensures Valid(h)
  {
    hide Wired, Backed;
    WiredSame(g, h);
  }

  // ---- every run ----

  /** What a step makes of the clients at the front. */
  function FrontAfter(g: Graph, e: Event): Front
    requires Can(g, e)
  {
    match e
    case Register(_, _) => g.front.(born := g.front.born + 1)
    case Accept(name, c) =>
      if Smart(Lookup(g.listeners, name).value) then g.front.(clients := g.front.clients[c := None]) else g.front
    case Choose(c, t) => g.front.(clients := g.front.clients[c := Some(Choice(t, g.transports[t].tenure.birth))])
    case Ask(c, _) => g.front.(clients := g.front.clients - {c})
    case Quit(c) => g.front.(clients := g.front.clients - {c})
    case InputExits(t) => g.front.(clients := Unchosen(g.front.clients, t))
    case _ => g.front
  }

  /** Only a registration makes a transport object, only a removal ends one, and only its input thread leaves it. */
  ghost predicate Tenures(g: Graph, h: Graph, e: Event) {
    && (forall t :: t in h.transports <==> (t in g.transports && e != Unregister(t)) || (e.Register? && e.t == t))
    && forall t :: t in h.transports ==>
         h.transports[t].tenure ==
         if e.Register? && e.t == t then Tenure(g.front.born, e.noPerm)
         else if t !in g.transports then h.transports[t].tenure
         else if e.InputExits? && e.t == t then g.transports[t].tenure.(left := true)
         else g.transports[t].tenure
  }

  /** A step of neither kind. */
  lemma FrontStays(g: Graph, e: Event)
    requires Can(g, e) && SameFront(g, After(g, e))
    requires OnStream(e) || OnForwards(e)
    ensures After(g, e).front == FrontAfter(g, e) && Tenures(g, After(g, e), e)
  {
    hide After, Can;
  }

  lemma BornStays(g: Graph, h: Graph, e: Event)
    requires Can(g, e) && Born(g) && h.front == FrontAfter(g, e) && Tenures(g, h, e)
    ensures Born(h)
  {
    hide Can, Smart, Lookup;
  }

  /** Any event keeps the graph and the sessions, and moves sockets only as they may. */
  lemma StepGood(g: Graph, e: Event)
    requires Good(g) && Can(g, e)
    ensures Good(After(g, e)) && AllMove(g, After(g, e))
    ensures After(g, e).front == FrontAfter(g, e) && Tenures(g, After(g, e), e)
  {
    hide Valid, AllMove, HasForwards, Can, After, FrontAfter, Tenures, Born, SameFront;
    var h := After(g, e);
    if OnForwards(e) {
      ForwardStep(g, e);
      FrontStays(g, e);
    } else if OnFront(e) {
      ClientStep(g, e);
      ListenersKept(g, h);
    } else if OnStream(e) {
      StreamStep(g, e);
      FrontStays(g, e);
      ListenersKept(g, h);
    } else {
      SessionStep(g, e);
      ListenersKept(g, h);
    }
    BornStays(g, h, e);
  }

  predicate OnForwards(e: Event) {
    e.AddForward? || e.KillForward? || e.KillAllForwards?
  }

  predicate OnFront(e: Event) {
    e.Accept? || e.Choose? || e.Ask? || e.Quit?
  }

  /** A step that hands a client over. */
  lemma DialledMoves(g: Graph, t: Ref, awaiting: bool, dest: string)
    requires Valid(g) && t in g.transports
    ensures var h := Dialled(g, t, awaiting, dest); Valid(h) && AllMove(g, h) && Beside(g, h)
  {
    hide Valid, AllMove, Only, Dialled;
    DialledValid(g, t, awaiting, dest);
    NewMoves(g, Dialled(g, t, awaiting, dest), g.nextRef);
    OnlyLists(g, Dialled(g, t, awaiting, dest), g.nextRef);
  }

  /** A connection to a forward opens a stream to its target on its device; one to the server's own port opens none. */
  lemma AcceptOpens(g: Graph, l: Listener, c: Ref)
    requires Good(g) && l in g.listeners && c !in g.front.clients
    ensures Can(g, Accept(l.localName, c))
    ensures var h := After(g, Accept(l.localName, c));
            if Smart(l) then h == g.(front := g.front.(clients := g.front.clients[c := None]))
            else
              && l.transport.Some? && l.transport.value in g.transports
              && Sends(g, h, l.transport.value, [Open(g.nextId, 0, l.connectTo)])
              && View(h, g.nextRef) == Spec.DialSock(false)
  {
    hide Dialled, Smart, Lookup, Only, Valid;
    Found(g, l);
    if !Smart(l) {
      DialledValid(g, l.transport.value, false, l.connectTo);
      DialOpens(g, l.transport.value, false, l.connectTo);
    }
  }

  lemma Found(g: Graph, l: Listener)
    requires Valid(g) && HasForwards(g) && l in g.listeners
    ensures Lookup(g.listeners, l.localName) == Some(l)
    ensures !Smart(l) ==> l.transport.Some? && l.transport.value in g.transports
  {
    hide Listed, Linked, Ids, Sessions, Backed, Online;
    LookupUnique(g, l);
  }

  lemma DialOpens(g: Graph, t: Ref, awaiting: bool, dest: string)
    requires t in g.transports
    ensures Sends(g, Dialled(g, t, awaiting, dest), t, [Open(g.nextId, 0, dest)])
  {
  }

  /** A request is opened as it is on the transport chosen, or refused. */
  lemma AskOpens(g: Graph, c: Ref, dest: string)
    requires Good(g) && c in g.front.clients
    ensures var h := After(g, Ask(c, dest));
            var k := g.front.clients[c];
            if k.Some? && k.value.transport in g.transports && g.transports[k.value.transport].state != Offline then
              && Sends(g, h, k.value.transport, [Open(g.nextId, 0, dest)])
              && View(h, g.nextRef) == Spec.DialSock(true)
            else h == g.(front := g.front.(clients := g.front.clients - {c}))
  {
    hide Dialled, Valid, Only;
    var k := WithClients(g, g.front.clients - {c});
    if Dials(g, c) {
      var t := g.front.clients[c].value.transport;
      LeftValid(g, k);
      DialledValid(k, t, true, dest);
      DialOpens(k, t, true, dest);
    }
  }

  lemma ClientStep(g: Graph, e: Event)
    requires Valid(g) && Can(g, e) && OnFront(e)
    ensures var h := After(g, e);
            && Valid(h) && AllMove(g, h) && h.listeners == g.listeners
            && h.front == FrontAfter(g, e) && Tenures(g, h, e)
  {
    hide Valid, AllMove, Dialled, Lookup, Smart;
    var k := g.(front := FrontAfter(g, e));
    LeftValid(g, k);
    StillMoves(g, k);
    match e
    case Accept(name, c) =>
      var l := Lookup(g.listeners, name).value;
      if !Smart(l) && l.transport.Some? && l.transport.value in g.transports {
        DialledMoves(g, l.transport.value, false, l.connectTo);
      }
    case Ask(c, dest) =>
      if Dials(g, c) {
        DialledMoves(k, g.front.clients[c].value.transport, true, dest);
        StillThen(g, k, After(g, e));
      }
    case _ =>
  }

  lemma ForwardStep(g: Graph, e: Event)
    requires Good(g) && Can(g, e) && OnForwards(e)
    ensures var h := After(g, e); Valid(h) && HasForwards(h) && AllMove(g, h) && SameFront(g, h)
  {
    hide Valid, AllMove, HasForwards, InstallListener, DropForward, RemoveAll, AsMap;
    match e
    case AddForward(name, connectTo, t, noRebind, bound) => AddStep(g, name, connectTo, t, noRebind, bound);
    case KillForward(name, _) =>
      RemoveIsDelete(g, name);
      DropStands(g, name);
      StillMoves(g, After(g, e));
    case KillAllForwards =>
      RemoveAllValid(g, g.listeners);
      RemoveAllStands(g, g.listeners);
      StillMoves(g, After(g, e));
  }

  lemma AddStep(g: Graph, name: string, connectTo: string, t: Ref, noRebind: bool, bound: bool)
    requires Valid(g) && HasForwards(g) && Can(g, AddForward(name, connectTo, t, noRebind, bound))
    ensures var h := InstallListener(g, name, connectTo, t, noRebind, bound).0;
            Valid(h) && HasForwards(h) && AllMove(g, h) && SameFront(g, h)
  {
    hide Valid, AllMove, HasForwards, InstallListener, AsMap;
    UsableIsOnline(g, t);
    InstallIsPut(g, name, connectTo, t, noRebind, bound);
    StillMoves(g, InstallListener(g, name, connectTo, t, noRebind, bound).0);
  }

  lemma UsableIsOnline(g: Graph, t: Ref)
    requires Valid(g) && t in g.transports && Usable(g.transports[t].state)
    ensures g.transports[t].online
  {
    hide Core;
    assert SessionOk(g.transports[t]);
  }

  lemma DropStands(g: Graph, name: string)
    ensures var h := DropForward(g, name); h.locals == g.locals && h.past == g.past && SameFront(g, h)
  {
    hide Without, Lookup;
  }

  lemma {:induction false} RemoveAllStands(g: Graph, ls: seq<Listener>)
    ensures var h := RemoveAll(g, ls); h.locals == g.locals && h.past == g.past && SameFront(g, h)
    decreases |ls|
  {
    hide DropForward, Smart;
    if ls != [] {
      DropStands(g, ls[0].localName);
      RemoveAllStands(if Smart(ls[0]) then g else DropForward(g, ls[0].localName), ls[1..]);
    }
  }

  predicate OnStream(e: Event) {
    e.GetOpen? || e.GetOkay? || e.GetClose? || e.GetWrite? || e.CanWrite? || e.CanRead? || e.HangUp?
  }

  lemma StreamStep(g: Graph, e: Event)
    requires Valid(g) && Can(g, e) && OnStream(e)
    ensures var h := After(g, e); Valid(h) && AllMove(g, h) && Beside(g, h)
  {
    hide Valid, AllMove, OnOpen, OnOkay, OnClse, OnWrite, Writable, Readable, Close, Answers, Only,
         Spec.OnWrite, Spec.OnOkay;
    match e
    case GetOpen(t, from, to, accept) =>
      OpenDoes(g, t, from, to, accept);
      OpenMoves(g, t, from, to, accept);
    case GetOkay(t, from, to) =>
      OkayDoes(g, t, from, to);
      OkayMoves(g, t, from, to);
    case GetClose(t, from, to) =>
      ClseDoes(g, t, from, to);
      CloseMoves(g, t, from, to);
    case GetWrite(t, from, to, data, env) =>
      WriteDoes(g, t, from, to, data, env);
      WriteMoves(g, t, from, to, data, env);
    case CanWrite(s, env) => WritableMoves(g, s, env);
    case CanRead(s, incoming) => ReadableMoves(g, s, incoming);
    case HangUp(s) => HangUpMoves(g, s);
  }

  lemma AuthMoves(g: Graph, t: Ref, kind: nat, reply: Option<Wire>)
    requires Valid(g) && t in g.transports && (reply.Some? ==> reply.value.Auth?)
    ensures var h := OnAuth(g, t, kind, reply); Valid(h) && AllMove(g, h) && Within(g, h)
  {
    hide Valid, AllMove;
    AuthKeeps(g, t, kind, reply);
    StillMoves(g, OnAuth(g, t, kind, reply));
  }

  lemma HandshakeMoves(g: Graph, t: Ref, kind: nat)
    requires Valid(g) && t in g.transports
    ensures var h := OnHdsk(g, t, kind); Valid(h) && AllMove(g, h) && Within(g, h)
  {
    hide Valid, AllMove;
    HandshakeKeeps(g, t, kind);
    StillMoves(g, OnHdsk(g, t, kind));
  }

  lemma SessionStep(g: Graph, e: Event)
    requires Valid(g) && Can(g, e)
    requires || e.Register? || e.Unregister? || e.GetSync? || e.GetConnect?
             || e.GetAuth? || e.GetHandshake? || e.InputExits?
    ensures var h := After(g, e);
            && Valid(h) && AllMove(g, h) && (forall l :: l in h.listeners ==> l in g.listeners)
            && h.front == FrontAfter(g, e) && Tenures(g, h, e)
  {
    hide Valid, AllMove, OnSync, OnCnxn, OnAuth, OnHdsk, CloseListed, Unregistered, InputGone, Unchosen;
    match e
    case Register(t, noPerm) =>
      RegisteredValid(g, t, noPerm);
      StillMoves(g, After(g, e));
    case Unregister(t) => UnregisterMoves(g, t);
    case GetSync(t, arg0, token) => SyncMoves(g, t, arg0, token);
    case GetConnect(t, banner) => ConnectMoves(g, t, banner);
    case GetAuth(t, kind, reply) => AuthMoves(g, t, kind, reply);
    case GetHandshake(t, kind) => HandshakeMoves(g, t, kind);
    case InputExits(t) => InputMoves(g, t);
  }

  // ---- clients ----

  /**
   What a client that was handed to a device has been sent: nothing while it waits; then one status
   in front, data only behind OKAY, and nothing at all behind FAIL. A client closed with its
   transport gets neither.
   */
  ghost predicate ClientOk(s: Spec.Sock) {
    if s.awaiting then s.phase.Connecting? && s.out == [] && s.queue == []
    else if s.out == [] then s.phase.Gone?
    else
      && (forall i :: 1 <= i < |s.out| ==> s.out[i].Chunk?)
      && (s.out[0].OkayStatus? || (s.out == [Spec.FailStatus] && s.phase.Gone?))
      && s.phase != Spec.Fresh && s.phase != Spec.Connecting
  }

  lemma CloseClient(a: Spec.Sock, fault: bool)
    requires ClientOk(a) && (Spec.Active(a) || a.phase.Draining?)
    ensures ClientOk(Spec.Close(a, fault).sock) && ClientOk(Spec.CloseLocked(a, fault).sock)
  {
  }

  /** Data goes to a client that already has its OKAY. */
  lemma DataClient(a: Spec.Sock, b: Spec.Sock, data: bytes)
    requires ClientOk(a) && !a.awaiting && a.phase != Spec.Gone
    requires b == a.(out := a.out + [Spec.Chunk(data)], queue := b.queue)
    ensures ClientOk(b) && !b.awaiting
  {
  }

  lemma WriteClient(a: Spec.Sock, d: bytes, env: seq<Spec.WriteResult>)
    requires ClientOk(a) && a.phase.Linked?
    ensures ClientOk(Spec.OnWrite(a, d, env).sock)
  {
    hide Spec.FirstWrite, Spec.Close, ClientOk;
    LinkedClient(a);
    if a.queue != [] {
      QueueClient(a, a.queue + [d]);
    } else {
      var w := Spec.FirstWrite(d, env);
      var t := a.(out := a.out + [Spec.Chunk(d[..w.0])]);
      DataClient(a, t, d[..w.0]);
      DataClient(a, t.(queue := [d[w.0..]]), d[..w.0]);
      CloseClient(t, true);
    }
  }

  lemma LinkedClient(a: Spec.Sock)
    requires ClientOk(a) && (a.phase.Linked? || a.phase.Draining?)
    ensures !a.awaiting
  {
  }

  lemma QueueClient(a: Spec.Sock, q: seq<bytes>)
    requires ClientOk(a) && !a.awaiting
    ensures ClientOk(a.(queue := q))
  {
  }

  lemma WritableClient(a: Spec.Sock, env: seq<Spec.WriteResult>)
    requires ClientOk(a) && a.queue != [] && (a.phase.Linked? || a.phase.Draining?)
    ensures ClientOk(Spec.OnWritable(a, env).sock)
  {
    hide Spec.DrainQueue, Spec.Close, ClientOk;
    LinkedClient(a);
    var d := Spec.DrainQueue(a.queue, env);
    var t := a.(out := a.out + [Spec.Chunk(d.sent)], queue := d.rest);
    DataClient(a, t, d.sent);
    CloseClient(t, true);
    CloseClient(t, false);
  }

  lemma ReadableClient(a: Spec.Sock, env: seq<Spec.ReadResult>)
    requires ClientOk(a) && a.phase.Linked?
    ensures ClientOk(Spec.OnReadable(a, env).sock)
  {
    hide Spec.ReadUp, Spec.Close;
    var r := Spec.ReadUp(MAX_PAYLOAD, env);
    var t := if r.0 == [] then a else a.(got := a.got + r.0, wantRead := false);
    CloseClient(t, true);
  }

  lemma LostClient(a: Spec.Sock)
    requires ClientOk(a) && a.phase.Linked?
    ensures ClientOk(Spec.Lost(a))
  {
  }

  lemma OkayClient(a: Spec.Sock)
    requires ClientOk(a) && Spec.Active(a)
    ensures ClientOk(Spec.OnOkay(a))
  {
  }

  /** Whatever happens to a client's socket keeps what it was told in order. */
  lemma MovesClient(a: Spec.Sock, b: Spec.Sock)
    requires ClientOk(a) && Moves(a, b) && (a.queue != [] ==> a.phase.Linked? || a.phase.Draining?)
    ensures ClientOk(b)
  {
    hide ClientOk, Spec.OnOkay, Spec.OnWrite, Spec.OnWritable, Spec.OnReadable, Spec.Close, Spec.CloseLocked,
         Spec.Lost;
    if b != a {
      if Spec.Active(a) {
        OkayClient(a);
      }
      if a.phase.Linked? {
        LostClient(a);
        forall d, env ensures ClientOk(Spec.OnWrite(a, d, env).sock) {
          WriteClient(a, d, env);
        }
        forall env ensures ClientOk(Spec.OnReadable(a, env).sock) {
          ReadableClient(a, env);
        }
      }
      if a.queue != [] {
        forall env ensures ClientOk(Spec.OnWritable(a, env).sock) {
          WritableClient(a, env);
        }
      }
      if Spec.Active(a) || a.phase.Draining? {
        forall fault ensures ClientOk(Spec.Close(a, fault).sock) && ClientOk(Spec.CloseLocked(a, fault).sock) {
          CloseClient(a, fault);
        }
      }
    }
  }

  /** A live socket with a backlog has a far side or is draining. */
  lemma BacklogOf(g: Graph, u: Ref)
    requires Valid(g) && u in g.locals
    ensures View(g, u).queue != [] ==> View(g, u).phase.Linked? || View(g, u).phase.Draining?
  {
    if u in g.active {
      ActiveHere(g, u);
    } else {
      ClosingFields(g, u);
    }
    hide Valid;
  }

  ghost predicate Clients(g: Graph, cs: set<Ref>) {
    forall u :: u in cs ==> Known(g, u) && ClientOk(View(g, u))
  }

  /** The client a step hands to a device, if any. */
  function NewClient(g: Graph, e: Event): set<Ref> {
    if e.Ask? && Dials(g, e.c) then {g.nextRef} else {}
  }

  lemma StepClients(g: Graph, e: Event, cs: set<Ref>)
    requires Good(g) && Can(g, e) && Clients(g, cs)
    ensures Clients(After(g, e), cs + NewClient(g, e))
  {
    hide Valid, HasForwards, Moves, ClientOk, After, Can, FrontAfter, Tenures, Born;
    StepGood(g, e);
    var h := After(g, e);
    forall u | u in cs ensures Known(h, u) && ClientOk(View(h, u)) {
      if u in g.locals {
        BacklogOf(g, u);
        MovesClient(View(g, u), View(h, u));
      }
    }
    if e.Ask? && Dials(g, e.c) {
      DialledClient(g, e);
    }
  }

  lemma DialledClient(g: Graph, e: Event)
    requires Valid(g) && Can(g, e) && e.Ask? && Dials(g, e.c)
    ensures Known(After(g, e), g.nextRef) && ClientOk(View(After(g, e), g.nextRef))
  {
    hide Valid, Only, Dialled;
    var k := WithClients(g, g.front.clients - {e.c});
    LeftValid(g, k);
    DialledValid(k, g.front.clients[e.c].value.transport, true, e.dest);
  }

  /** The states of a run, with the clients handed to devices on the way. */
  ghost predicate Reaches(g: Graph, cs: set<Ref>, events: seq<Event>, h: Graph, ds: set<Ref>)
    decreases |events|
  {
    if events == [] then g == h && cs == ds
    else Can(g, events[0]) && Reaches(After(g, events[0]), cs + NewClient(g, events[0]), events[1..], h, ds)
  }

  /**
   In every run the graph and the sessions stay valid, and every client ever handed to a device has
   been told what `ClientOk` allows.
   */
  lemma {:induction false} EveryRun(g: Graph, cs: set<Ref>, events: seq<Event>, h: Graph, ds: set<Ref>)
    requires Good(g) && Clients(g, cs) && Reaches(g, cs, events, h, ds)
    ensures Good(h) && Clients(h, ds)
    decreases |events|
  {
    hide Good, Clients, Can, After;
    if events != [] {
      StepGood(g, events[0]);
      StepClients(g, events[0], cs);
      EveryRun(After(g, events[0]), cs + NewClient(g, events[0]), events[1..], h, ds);
    }
  }

  /** A server as it starts: one listener for clients, no device. */
  const Boot: Graph := Graph(1, 0, 0, [], [], map[], map[], map[],
                             [Listener("tcp:5037", "*smartsocket*", None)], map[], Front(map[], 0))

  lemma BootGood()
    ensures Good(Boot) && Clients(Boot, {})
  {
    assert Smart(Boot.listeners[0]);
  }

  /** A server to which one device has connected. */
  function WithDevice(t: Ref): Graph {
    var x := Transport(Device, true, [], [], Tenure(0, false));
    Boot.(transports := map[t := x], front := Front(map[], 1))
  }

  lemma DeviceBanner()
    ensures BannerState("device::") == Device
  {
    hide BannerState;
    assert "device" + "::" == "device::";
    BannerMeans("device", "::");
  }

  /** Boot and the two events of a first device. */
  lemma DeviceConnects(t: Ref)
    ensures Can(Boot, Register(t, false)) && Can(After(Boot, Register(t, false)), GetConnect(t, "device::"))
    ensures After(After(Boot, Register(t, false)), GetConnect(t, "device::")) == WithDevice(t)
  {
    hide BannerState, GoOffline;
    DeviceBanner();
  }

  /**
   Once a device can be acquired, killforward of the server's own name leaves it without the listener
   for its clients; without a device the request is refused.
   */
  lemma BootKilled(t: Ref)
    ensures !Can(Boot, KillForward("tcp:5037", t))
    ensures Can(WithDevice(t), KillForward("tcp:5037", t))
    ensures After(WithDevice(t), KillForward("tcp:5037", t)).listeners == []
    ensures After(WithDevice(t), KillAllForwards) == WithDevice(t)
  {
    hide RemoveListener, RemoveAll;
    OwnListener(WithDevice(t));
  }

  lemma OwnListener(g: Graph)
    requires g.listeners == Boot.listeners
    ensures RemoveListener(g, "tcp:5037").0.listeners == [] && RemoveAll(g, g.listeners) == g
  {
    assert Smart(g.listeners[0]);
  }

  // ---- what is said to devices ----

  /** More was sent, and no SYNC among it. */
  ghost predicate Longer(a: seq<Wire>, b: seq<Wire>) {
    a <= b && Pumps.NoSync(b[|a|..])
  }

  /** On every transport that stays, only packets other than SYNC were sent. */
  ghost predicate Plain(g: Graph, h: Graph) {
    forall t :: t in g.transports && t in h.transports ==> Longer(g.transports[t].sent, h.transports[t].sent)
  }

  lemma LongerBy(a: seq<Wire>, ws: seq<Wire>)
    requires Pumps.NoSync(ws)
    ensures Longer(a, a + ws)
  {
    assert (a + ws)[|a|..] == ws;
  }

  lemma LongerTrans(a: seq<Wire>, b: seq<Wire>, c: seq<Wire>)
    requires Longer(a, b) && Longer(b, c)
    ensures Longer(a, c)
  {
    assert c[|a|..] == b[|a|..] + c[|b|..];
  }

  lemma PlainTrans(g: Graph, h: Graph, k: Graph)
    requires Plain(g, h) && Plain(h, k) && h.transports.Keys == g.transports.Keys
    ensures Plain(g, k)
  {
    hide Longer;
    forall t | t in g.transports && t in k.transports ensures Longer(g.transports[t].sent, k.transports[t].sent) {
      LongerTrans(g.transports[t].sent, h.transports[t].sent, k.transports[t].sent);
    }
  }

  lemma SendsPlain(g: Graph, h: Graph, t: Ref, ws: seq<Wire>)
    requires Sends(g, h, t, ws) && Pumps.NoSync(ws)
    ensures Plain(g, h)
  {
    hide Longer;
    forall u | u in g.transports && u in h.transports ensures Longer(g.transports[u].sent, h.transports[u].sent) {
      LongerBy(g.transports[u].sent, if u == t then ws else []);
    }
  }

  lemma QuietPlain(g: Graph, h: Graph)
    requires forall u :: u in g.transports && u in h.transports ==> h.transports[u].sent == g.transports[u].sent
    ensures Plain(g, h)
  {
    forall u | u in g.transports && u in h.transports ensures Longer(g.transports[u].sent, h.transports[u].sent) {
      assert g.transports[u].sent[|g.transports[u].sent|..] == [];
    }
  }

  lemma SendOnPlain(g: Graph, t: Ref, w: Wire)
    requires t in g.transports && !w.Sync?
    ensures Plain(g, SendOn(g, t, w))
  {
    SendsPlain(g, SendOn(g, t, w), t, [w]);
  }

  lemma {:induction false} SaidPlain(g: Graph, s: Ref, msgs: seq<Spec.Msg>)
    requires HasLink(g, s)
    ensures Pumps.NoSync(SaidAll(g, s, msgs))
  {
    if msgs != [] {
      SaidPlain(g, s, msgs[1..]);
    }
  }

  lemma AnswersPlain(g: Graph, h: Graph, s: Ref, r: Spec.Reply)
    requires Answers(g, h, s, r)
    ensures Plain(g, h) && h.transports.Keys == g.transports.Keys
  {
    hide Only, SaidAll, Plain;
    SaidPlain(g, s, r.msgs);
    SendsPlain(g, h, LinkOf(g, s), SaidAll(g, s, r.msgs));
  }

  lemma ClosePlain(g: Graph, s: Ref, fault: bool)
    requires Valid(g) && s in g.locals
    ensures Plain(g, Close(g, s, fault)) && Close(g, s, fault).transports.Keys == g.transports.Keys
  {
    hide Valid, Only, Close, Plain, Spec.Close;
    CloseDoes(g, s, fault);
    if g.locals[s].peer.Some? {
      SendsPlain(g, Close(g, s, fault), LinkOf(g, s), [Clse(g.locals[s].id, g.remotes[g.locals[s].peer.value].id)]);
    } else {
      QuietPlain(g, Close(g, s, fault));
    }
  }

  lemma CloseLockedPlain(g: Graph, s: Ref)
    requires Valid(g) && s in g.locals
    ensures Plain(g, CloseLocked(g, s, true)) && CloseLocked(g, s, true).transports.Keys == g.transports.Keys
  {
    hide Valid, Core, Only, CloseLocked, Plain, Spec.CloseLocked;
    CoreOf(g);
    CloseLockedDoes(g, s, true);
    if g.locals[s].peer.Some? {
      var packet := Clse(g.locals[s].id, g.remotes[g.locals[s].peer.value].id);
      SendsPlain(g, CloseLocked(g, s, true), LinkOf(g, s), [packet]);
    } else {
      QuietPlain(g, CloseLocked(g, s, true));
    }
  }

  lemma {:induction false} CloseListedPlain(g: Graph, t: Ref)
    requires Valid(g)
    ensures Plain(g, CloseListed(g, t))
    decreases |g.active|
  {
    hide Valid, CloseLocked, FirstOn, Only, Without, CloseListed, Plain;
    CloseListedStep(g, t);
    match FirstOn(g, g.active, t)
    case None => QuietPlain(g, g);
    case Some(s) =>
      CloseLockedPlain(g, s);
      CloseListedPlain(CloseLocked(g, s, true), t);
      PlainTrans(g, CloseLocked(g, s, true), CloseListed(g, t));
  }

  lemma WritePlain(g: Graph, t: Ref, from: nat, to: nat, data: bytes, env: seq<Spec.WriteResult>)
    requires Valid(g) && t in g.transports
    ensures Plain(g, OnWrite(g, t, from, to, data, env))
  {
    hide Valid, Answers, FindIn, Enqueue, Spec.OnWrite, Plain;
    QuietPlain(g, g);
    if g.transports[t].online && from != 0 && to != 0 && Find(g, to, from).Some? {
      var s := Find(g, to, from).value;
      FoundIsLinked(g, to, from);
      EnqueueDoes(g, s, data, env);
      var r := Enqueue(g, s, data, env);
      var want := Spec.OnWrite(View(g, s), data, env);
      AnswersPlain(g, r.0, s, if r.1 then Spec.Reply(want.sock, []) else want);
      if r.1 && t in r.0.transports {
        SendOnPlain(r.0, t, Okay(g.locals[s].id, from));
        PlainTrans(g, r.0, SendOn(r.0, t, Okay(g.locals[s].id, from)));
      }
    }
  }

  lemma StreamPlain(g: Graph, e: Event)
    requires Valid(g) && Can(g, e) && OnStream(e)
    ensures Plain(g, After(g, e))
  {
    hide Valid, Plain, OnOpen, OnOkay, OnClse, OnWrite, Writable, Readable, Close;
    match e
    case GetOpen(t, from, to, accept) => OpenSays(g, t, from, to, accept);
    case GetOkay(t, from, to) => OkaySays(g, t, from, to);
    case GetClose(t, from, to) => CloseSays(g, t, from, to);
    case GetWrite(t, from, to, data, env) => WritePlain(g, t, from, to, data, env);
    case CanWrite(s, env) => WritableSays(g, s, env);
    case CanRead(s, incoming) => ReadableSays(g, s, incoming);
    case HangUp(s) => ClosePlain(g, s, true);
  }

  lemma OpenSays(g: Graph, t: Ref, from: nat, to: nat, accept: bool)
    requires Valid(g) && t in g.transports
    ensures Plain(g, OnOpen(g, t, from, to, accept))
  {
    hide Valid, Plain, OnOpen, Only, View;
    QuietPlain(g, g);
    OpenDoes(g, t, from, to, accept);
    if g.transports[t].online && from != 0 && to == 0 {
      SendsPlain(g, OnOpen(g, t, from, to, accept), t, [if accept then Okay(g.nextId, from) else Clse(0, from)]);
    }
  }

  lemma OkaySays(g: Graph, t: Ref, from: nat, to: nat)
    requires Valid(g) && t in g.transports
    ensures Plain(g, OnOkay(g, t, from, to))
  {
    hide Valid, Plain, OnOkay, Only, Answers, View, FindIn, Spec.OnOkay;
    OkayDoes(g, t, from, to);
    QuietPlain(g, OnOkay(g, t, from, to));
  }

  lemma CloseSays(g: Graph, t: Ref, from: nat, to: nat)
    requires Valid(g) && t in g.transports
    ensures Plain(g, OnClse(g, t, from, to))
  {
    hide Valid, Plain, Close, FindIn;
    QuietPlain(g, g);
    if OnClse(g, t, from, to) != g {
      ClosePlain(g, Find(g, to, from).value, false);
    }
  }

  lemma WritableSays(g: Graph, s: Ref, env: seq<Spec.WriteResult>)
    requires Valid(g) && s in g.locals && g.locals[s].wantWrite
    ensures Plain(g, Writable(g, s, env))
  {
    hide Valid, Plain, Writable, Only, Answers, Spec.OnWritable, View;
    WantsWrite(g, s);
    if s in g.closing {
      WritableClosing(g, s, env);
      QuietPlain(g, Writable(g, s, env));
    } else {
      WritableLinked(g, s, env);
      AnswersPlain(g, Writable(g, s, env), s, Spec.OnWritable(View(g, s), env));
    }
  }

  lemma ReadableSays(g: Graph, s: Ref, env: seq<Spec.ReadResult>)
    requires Valid(g) && s in g.locals
    ensures Plain(g, Readable(g, s, env))
  {
    hide Valid, Plain, Readable, Only, Answers, Spec.OnReadable, View, Spec.ReadUp, Close;
    QuietPlain(g, g);
    if HasLink(g, s) {
      ReadableLinked(g, s, env);
      AnswersPlain(g, Readable(g, s, env), s, Spec.OnReadable(View(g, s), env));
    } else {
      ReadableUnlinked(g, s, env);
      ClosePlain(g, s, true);
    }
  }

  lemma OfflineQuiet(g: Graph, t: Ref)
    requires Valid(g) && t in g.transports
    ensures var h := GoOffline(g, t);
            && h.transports.Keys == g.transports.Keys
            && forall u :: u in g.transports ==> h.transports[u].sent == g.transports[u].sent
  {
    hide Valid, GoOffline, View, Spec.CloseLocked;
    OfflinePurges(g, t);
  }

  lemma {:induction false} RemoveAllQuiet(g: Graph, ls: seq<Listener>)
    ensures var h := RemoveAll(g, ls);
            && h.transports.Keys == g.transports.Keys
            && forall u :: u in g.transports ==> h.transports[u].sent == g.transports[u].sent
    decreases |ls|
  {
    hide Without, Lookup, Smart;
    if ls != [] {
      RemoveAllQuiet(if Smart(ls[0]) then g else DropForward(g, ls[0].localName), ls[1..]);
    }
  }

  /**
   What the engine says to a device: a SYNC is answered as `Pumps` has it, and nothing else it does
   sends a SYNC; so its steps are the event loop's steps there.
   */
  lemma EngineSays(g: Graph, e: Event, t: Ref)
    requires Good(g) && Can(g, e) && t in g.transports && t in After(g, e).transports
    ensures var h := After(g, e);
            if e.GetSync? && e.t == t then
              h.transports[t].sent == g.transports[t].sent + Pumps.Answer(Sync(e.arg0, e.token), [])
            else Longer(g.transports[t].sent, h.transports[t].sent)
  {
    hide Valid, HasForwards, Longer;
    if OnStream(e) {
      StreamPlain(g, e);
    } else if e.GetSync? {
      SyncSays(g, e.t, e.arg0, e.token, t);
    } else {
      OtherPlain(g, e);
    }
  }

  lemma SyncSays(g: Graph, t: Ref, arg0: nat, token: nat, u: Ref)
    requires Valid(g) && t in g.transports && u in g.transports
    ensures var h := OnSync(g, t, arg0, token);
            u in h.transports &&
            if u == t then h.transports[t].sent == g.transports[t].sent + Pumps.Answer(Sync(arg0, token), [])
            else Longer(g.transports[u].sent, h.transports[u].sent)
  {
    hide Valid, GoOffline;
    OfflineQuiet(g, t);
    LongerBy(g.transports[u].sent, []);
    assert g.transports[u].sent + [] == g.transports[u].sent;
    assert g.transports[t].sent + [Sync(arg0, token)] + [Cnxn("host::")] ==
           g.transports[t].sent + [Sync(arg0, token), Cnxn("host::")];
  }

  lemma OtherPlain(g: Graph, e: Event)
    requires Good(g) && Can(g, e) && !e.GetSync?
    requires !OnStream(e)
    ensures Plain(g, After(g, e))
  {
    hide Valid, HasForwards, Born, Plain, GoOffline, CloseListed, RemoveAll, DropForward, InstallListener, AsMap,
         Smart, BannerState, Accepted, Asked, InputGone, Unregistered, OnAuth, Lookup;
    match e
    case Register(t, noPerm) => QuietPlain(g, After(g, e));
    case Unregister(t) => UnregisterQuiet(g, t);
    case Accept(name, c) => AcceptSays(g, name, c);
    case Choose(c, t) => QuietPlain(g, After(g, e));
    case Ask(c, dest) => AskSays(g, c, dest);
    case Quit(c) => QuietPlain(g, After(g, e));
    case GetConnect(t, banner) =>
      OfflineQuiet(g, t);
      QuietPlain(g, After(g, e));
    case GetAuth(t, kind, reply) => AuthSays(g, t, kind, reply);
    case GetHandshake(t, kind) =>
      QuietPlain(g, g);
      SendOnPlain(g, t, Hdsk(2, "paxadb"));
    case InputExits(t) => ExitSays(g, t);
    case AddForward(name, connectTo, t, noRebind, bound) =>
      ForwardQuiet(g, e);
      QuietPlain(g, After(g, e));
    case KillForward(name, _) =>
      DropQuiet(g, name);
      QuietPlain(g, After(g, e));
    case KillAllForwards =>
      RemoveAllQuiet(g, g.listeners);
      QuietPlain(g, After(g, e));
  }

  lemma DialSays(g: Graph, t: Ref, awaiting: bool, dest: string)
    requires t in g.transports
    ensures Plain(g, Dialled(g, t, awaiting, dest))
  {
    hide Plain;
    SendsPlain(g, Dialled(g, t, awaiting, dest), t, [Open(g.nextId, 0, dest)]);
  }

  lemma AcceptSays(g: Graph, name: string, c: Ref)
    ensures Plain(g, Accepted(g, name, c))
  {
    hide Plain, Lookup, Smart, Dialled;
    QuietPlain(g, g);
    QuietPlain(g, WithClients(g, g.front.clients[c := None]));
    match Lookup(g.listeners, name)
    case None =>
    case Some(l) =>
      if !Smart(l) && l.transport.Some? && l.transport.value in g.transports {
        DialSays(g, l.transport.value, false, l.connectTo);
      }
  }

  lemma AskSays(g: Graph, c: Ref, dest: string)
    ensures Plain(g, Asked(g, c, dest))
  {
    hide Plain, Dialled;
    var h := WithClients(g, g.front.clients - {c});
    QuietPlain(g, h);
    if Dials(g, c) {
      DialSays(h, g.front.clients[c].value.transport, true, dest);
      PlainTrans(g, h, Asked(g, c, dest));
    }
  }

  lemma ExitSays(g: Graph, t: Ref)
    requires Valid(g) && t in g.transports
    ensures Plain(g, InputGone(g, t))
  {
    hide Valid, Plain, CloseListed;
    CloseListedDoes(g, t);
    CloseListedPlain(g, t);
    QuietPlain(CloseListed(g, t), InputGone(g, t));
    PlainTrans(g, CloseListed(g, t), InputGone(g, t));
  }

  lemma AuthSays(g: Graph, t: Ref, kind: nat, reply: Option<Wire>)
    requires t in g.transports && (reply.Some? ==> reply.value.Auth?)
    ensures Plain(g, OnAuth(g, t, kind, reply))
  {
    hide Plain;
    if kind == 1 && reply.Some? {
      SendsPlain(g, OnAuth(g, t, kind, reply), t, [reply.value]);
    } else {
      QuietPlain(g, OnAuth(g, t, kind, reply));
    }
  }

  lemma DropQuiet(g: Graph, name: string)
    ensures var h := DropForward(g, name);
            && h.transports.Keys == g.transports.Keys
            && forall u :: u in g.transports ==> h.transports[u].sent == g.transports[u].sent
  {
    hide Without, Lookup;
  }

  lemma ForwardQuiet(g: Graph, e: Event)
    requires e.AddForward? && e.t in g.transports
    ensures var h := InstallListener(g, e.name, e.connectTo, e.t, e.noRebind, e.bound).0;
            && h.transports.Keys == g.transports.Keys
            && forall u :: u in g.transports ==> h.transports[u].sent == g.transports[u].sent
  {
    hide Without, Lookup, Smart, Replace;
  }

  lemma UnregisterQuiet(g: Graph, t: Ref)
    requires Valid(g) && t in g.transports
    ensures Plain(g, Unregistered(g, t))
  {
    hide Core, RunAll, Plain, Online;
    UnregisteredValid(g, t);
    QuietPlain(g, Unregistered(g, t));
  }
}
