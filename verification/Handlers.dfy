/**
 handle_packet, the descriptor events and the sessions of one adb process, as functions on the
 socket graph (src/adb.c:216-228, 524-691; src/sockets.c:126-411, 544-602). `Host` runs them as
 loops and field updates and is proved against these functions.
 */
module Handlers {
  import opened Octets
  import Spec = SocketSpec
  import opened Lists
  import opened Graph

  // ---- new sockets and links ----

  /** install_local_socket: the id comes from a 32-bit counter that skips 0. */
  function Install(g: Graph): Graph {
    var l := Local(g.nextId, false, None, None, [], false, false, false, g.issued, [], [], false, false, false);
    g.(nextId := if g.nextId == 0xffff_ffff then 1 else g.nextId + 1, issued := g.issued + 1,
       nextRef := g.nextRef + 1, active := g.active + [g.nextRef], locals := g.locals[g.nextRef := l])
  }

  /** create_remote_socket on transport t, joined to s. */
  function Link(g: Graph, s: Ref, id: nat, t: Ref): Graph
    requires s in g.locals && t in g.transports
  {
    var r := g.nextRef;
    var x := g.transports[t];
    g.(nextRef := r + 1, remotes := g.remotes[r := Remote(id, s, t)],
       locals := g.locals[s := g.locals[s].(peer := Some(r), ever := true)],
       transports := g.transports[t := x.(disconnects := x.disconnects + [OfSocket(r)])])
  }

  lemma InstallListed(g: Graph)
    requires Listed(g) && Ids(g)
    ensures Listed(Install(g))
  {
    var h := Install(g);
    var n := g.nextRef;
    assert n !in g.active && n !in g.closing by {
      assert forall s :: s in g.active ==> ActiveOk(g, s);
      assert forall s :: s in g.closing ==> ClosingOk(g, s);
      hide NoDup;
    }
    hide NoDup;
    AppendNoDup(g.active, n);
    forall u | u in h.active ensures ActiveOk(h, u) {
      assert u != n ==> ActiveOk(g, u);
    }
    forall u | u in h.closing ensures ClosingOk(h, u) {
      assert ClosingOk(g, u);
    }
  }

  lemma InstallIds(g: Graph)
    requires Ids(g)
    ensures Ids(Install(g))
  {
    NextId(g.issued);
  }

  lemma InstallLinked(g: Graph)
    requires Linked(g) && Ids(g)
    ensures Linked(Install(g))
  {
    forall r | r in g.remotes ensures RemoteOk(Install(g), r) {
      assert RemoteOk(g, r);
    }
  }

  lemma NextId(n: nat)
    ensures (n + 1) % ID_CYCLE + 1 == if n % ID_CYCLE + 1 == 0xffff_ffff then 1 else n % ID_CYCLE + 2
  {
  }

  lemma InstallCore(g: Graph)
    requires Core(g)
    ensures Core(Install(g))
  {
    assert forall s :: s in g.active ==> s in g.locals && s < g.nextRef by {
      assert forall s :: s in g.active ==> ActiveOk(g, s);
      hide Linked, Sessions, Forwarded, NoDup;
    }
    hide Listed, Linked, Forwarded, Sessions, Ids;
    InstallListed(g);
    InstallIds(g);
    InstallLinked(g);
    ForwardedFrame(g, Install(g));
    SessionsFrame(g, Install(g));
  }

  lemma LinkListed(g: Graph, s: Ref, id: nat, t: Ref)
    requires Listed(g) && Ids(g) && s in g.active && s in g.locals && g.locals[s].peer.None?
    requires !g.locals[s].awaiting && t in g.transports
    ensures Listed(Link(g, s, id, t))
  {
    hide NoDup;
    var h := Link(g, s, id, t);
    forall u | u in h.active ensures ActiveOk(h, u) {
      assert ActiveOk(g, u);
    }
    forall u | u in h.closing ensures ClosingOk(h, u) {
      assert ClosingOk(g, u);
      assert ActiveOk(g, s);
    }
  }

  lemma LinkIds(g: Graph, s: Ref, id: nat, t: Ref)
    requires Ids(g) && s in g.locals && t in g.transports
    ensures Ids(Link(g, s, id, t))
  {
    assert forall u :: u in Link(g, s, id, t).locals <==> u in g.locals;
  }

  lemma LinkLinked(g: Graph, s: Ref, id: nat, t: Ref)
    requires Linked(g) && Ids(g) && s in g.locals && g.locals[s].peer.None? && t in g.transports && id != 0
    ensures Linked(Link(g, s, id, t))
  {
    var h := Link(g, s, id, t);
    forall r | r in h.remotes ensures RemoteOk(h, r) {
      if r != g.nextRef { assert RemoteOk(g, r); }
    }
  }

  lemma LinkSessions(g: Graph, s: Ref, id: nat, t: Ref)
    requires Sessions(g) && Ids(g) && s in g.locals && t in g.transports
    ensures Sessions(Link(g, s, id, t))
  {
    var h := Link(g, s, id, t);
    forall u | u in h.transports ensures TransportOk(h, u) {
      assert TransportOk(g, u);
    }
  }

  lemma LinkForwarded(g: Graph, s: Ref, id: nat, t: Ref)
    requires Forwarded(g) && s in g.locals && t in g.transports
    ensures Forwarded(Link(g, s, id, t))
  {
  }

  lemma LinkCore(g: Graph, s: Ref, id: nat, t: Ref)
    requires Core(g) && s in g.active && s in g.locals && g.locals[s].peer.None? && !g.locals[s].awaiting
    requires t in g.transports && id != 0
    ensures Core(Link(g, s, id, t))
  {
    hide Listed, Linked, Sessions, Forwarded, Ids;
    LinkListed(g, s, id, t);
    LinkLinked(g, s, id, t);
    LinkSessions(g, s, id, t);
    LinkForwarded(g, s, id, t);
    LinkIds(g, s, id, t);
  }

  /** local_socket_ready, or local_socket_ready_notify. */
  function MakeReady(g: Graph, s: Ref): Graph
    requires s in g.locals
  {
    var l := g.locals[s];
    Edit(g, s, if l.awaiting then l.(awaiting := false, out := l.out + [Spec.OkayStatus], wantRead := true)
               else l.(wantRead := true))
  }

  lemma ActiveHere(g: Graph, s: Ref)
    requires Core(g) && s in g.active
    ensures s in g.locals && !g.locals[s].closing && 0 < g.locals[s].id
    ensures g.locals[s].peer.Some? ==> HasLink(g, s) && !g.locals[s].awaiting
    ensures g.locals[s].wantWrite <==> g.locals[s].queue != []
    ensures g.locals[s].queue != [] ==> g.locals[s].peer.Some?
  {
    assert ActiveOk(g, s);
    if g.locals[s].peer.Some? { LinkExists(g, s); }
  }

  lemma EditBacked(g: Graph, s: Ref, l: Local)
    requires Core(g) && s in g.locals && l.closing == g.locals[s].closing
    requires l.queue != [] && !l.closing ==> l.peer.Some?
    ensures Backed(Edit(g, s, l))
  {
    assert s in g.active ==> ActiveOk(g, s);
    hide Linked, Sessions, Forwarded, Ids, NoDup;
  }

  /** Editing fields that no link depends on keeps the graph. */
  lemma EditCore(g: Graph, s: Ref, l: Local)
    requires Core(g) && s in g.locals && SameLinks(g.locals[s], l)
    requires l.queue != [] && !l.closing ==> l.peer.Some?
    ensures Core(Edit(g, s, l)) && Only(g, Edit(g, s, l), s) && Edit(g, s, l).transports == g.transports
  {
    EditBacked(g, s, l);
    hide Wired, Backed, Only;
    EditWired(g, s, l);
    EditDoes(g, s, l);
  }

  lemma ReadyCore(g: Graph, s: Ref)
    requires Core(g) && s in g.active
    ensures s in g.locals
    ensures Core(MakeReady(g, s)) && Only(g, MakeReady(g, s), s) && MakeReady(g, s).transports == g.transports
    ensures MakeReady(g, s).active == g.active && s in MakeReady(g, s).locals
    ensures MakeReady(g, s).locals[s].peer == g.locals[s].peer && !MakeReady(g, s).locals[s].closing
    ensures !MakeReady(g, s).locals[s].awaiting
    ensures View(MakeReady(g, s), s) == Spec.Ready(View(g, s))
  {
    ActiveHere(g, s);
    hide Core;
    EditCore(g, s, MakeReady(g, s).locals[s]);
  }

  // ---- finding a socket ----

  /** The peer of s has the given id. */
  predicate PeerIs(g: Graph, s: Ref, id: nat) {
    && s in g.locals && g.locals[s].peer.Some? && g.locals[s].peer.value in g.remotes
    && g.remotes[g.locals[s].peer.value].id == id
  }

  /** find_local_socket walks the active list and stops at the first socket with the id. */
  function FindIn(g: Graph, list: seq<Ref>, id: nat, peer: nat): (r: Option<Ref>)
    ensures r.Some? ==> r.value in list && r.value in g.locals && g.locals[r.value].id == id
                        && (peer == 0 || PeerIs(g, r.value, peer))
  {
    if list == [] then None
    else if list[0] in g.locals && g.locals[list[0]].id == id then
      (if peer == 0 || PeerIs(g, list[0], peer) then Some(list[0]) else None)
    else FindIn(g, list[1..], id, peer)
  }

  function Find(g: Graph, id: nat, peer: nat): Option<Ref> {
    FindIn(g, g.active, id, peer)
  }

  /** Distinct ids make the search exact: it finds s if and only if s is the one that matches. */
  lemma {:induction false} FindExact(g: Graph, list: seq<Ref>, id: nat, peer: nat, s: Ref)
    requires forall u :: u in list ==> u in g.locals
    requires forall u, v :: u in list && v in list && g.locals[u].id == g.locals[v].id ==> u == v
    requires s in list && g.locals[s].id == id
    ensures FindIn(g, list, id, peer) == if peer == 0 || PeerIs(g, s, peer) then Some(s) else None
  {
    if list[0] != s {
      FindExact(g, list[1..], id, peer, s);
    }
  }

  lemma SameResidue(a: nat, b: nat)
    requires a <= b
    ensures a % ID_CYCLE == b % ID_CYCLE <==> (b - a) % ID_CYCLE == 0
  {
  }

  /**
   Two live sockets share an id exactly when the numbers of sockets issued before them differ by a
   multiple of 2^32 - 1; so ids are distinct while fewer than that were issued since the oldest.
   */
  lemma IdsDistinctInWindow(g: Graph, s: Ref, u: Ref)
    requires Core(g) && s in g.active && u in g.active
    requires s in g.locals && u in g.locals && g.locals[s].ticket <= g.locals[u].ticket
    ensures var d := g.locals[u].ticket - g.locals[s].ticket;
            && (g.locals[s].id == g.locals[u].id <==> d % ID_CYCLE == 0)
            && (g.locals[s].id == g.locals[u].id && d < ID_CYCLE ==> s == u)
  {
    assert ActiveOk(g, s) && ActiveOk(g, u);
    SameResidue(g.locals[s].ticket, g.locals[u].ticket);
    hide Listed, Linked, Sessions, Forwarded;
  }

  // ---- packets of streams ----

  /** OPEN(from, 0, name): `accept` is whether the service could be started. */
  function OnOpen(g: Graph, t: Ref, from: nat, to: nat, accept: bool): Graph
    requires t in g.transports
  {
    if !g.transports[t].online || from == 0 || to != 0 then g
    else if !accept then SendOn(g, t, Clse(0, from))
    else
      var s := g.nextRef;
      SendOn(Link(MakeReady(Install(g), s), s, from, t), t, Okay(g.nextId, from))
  }

  /** READY(from, to): the first one makes the link. */
  function OnOkay(g: Graph, t: Ref, from: nat, to: nat): Graph
    requires t in g.transports
  {
    if !g.transports[t].online || from == 0 || to == 0 || Find(g, to, 0).None? then g
    else
      var s := Find(g, to, 0).value;
      if g.locals[s].peer.None? then Link(MakeReady(g, s), s, from, t)
      else if PeerIs(g, s, from) then MakeReady(g, s)
      else g
  }

  /** CLOSE(from, to): one from 0 must come over the transport of the stream. */
  function OnClse(g: Graph, t: Ref, from: nat, to: nat): Graph
    requires t in g.transports
  {
    if !g.transports[t].online || to == 0 || Find(g, to, from).None? then g
    else
      var s := Find(g, to, from).value;
      if from == 0 && HasLink(g, s) && LinkOf(g, s) != t then g else Close(g, s, false)
  }

  /** local_socket_enqueue. */
  function Enqueue(g: Graph, s: Ref, data: bytes, env: seq<Spec.WriteResult>): (r: (Graph, bool))
    requires s in g.locals
  {
    var l := g.locals[s];
    if l.queue != [] then (Edit(g, s, l.(queue := l.queue + [data], wantWrite := true)), false)
    else
      var w := Spec.FirstWrite(data, env);
      var m := l.(out := l.out + [Spec.Chunk(data[..w.0])]);
      match w.1
      case Drained => (Edit(g, s, m), true)
      case Blocked => (Edit(g, s, m.(queue := [data[w.0..]], wantWrite := true)), false)
      case Broken => (Close(Edit(g, s, m), s, true), false)
  }

  /** WRITE(from, to, data), answered with READY when everything was written. */
  function OnWrite(g: Graph, t: Ref, from: nat, to: nat, data: bytes, env: seq<Spec.WriteResult>): Graph
    requires t in g.transports
  {
    if !g.transports[t].online || from == 0 || to == 0 || Find(g, to, from).None? then g
    else
      var s := Find(g, to, from).value;
      var r := Enqueue(g, s, data, env);
      if r.1 && t in r.0.transports then SendOn(r.0, t, Okay(g.locals[s].id, from)) else r.0
  }

  /** Online is kept by anything that only shortens disconnect lists. */
  lemma OnlineKept(g: Graph, h: Graph)
    requires Online(g) && h.transports.Keys == g.transports.Keys
    requires forall t :: t in g.transports ==>
               && h.transports[t].state == g.transports[t].state && h.transports[t].online == g.transports[t].online
               && (h.transports[t].disconnects != [] ==> g.transports[t].disconnects != [] || g.transports[t].online)
    ensures Online(h)
  {
  }

  lemma CloseShortens(g: Graph, s: Ref, fault: bool, t: Ref)
    requires Core(g) && s in g.locals && t in g.transports
    ensures var h := CloseLocked(g, s, fault);
            t in h.transports && (h.transports[t].disconnects != [] ==> g.transports[t].disconnects != [])
  {
    if g.locals[s].peer.Some? {
      LinkExists(g, s);
      hide Core, Without, Retire;
      RetireDoes(Unlink(Shutdown(g, s), s), s, fault);
    } else {
      hide Core, Without, Retire;
      RetireDoes(g, s, fault);
    }
  }

  lemma CloseLockedOnline(g: Graph, s: Ref, fault: bool)
    requires Valid(g) && s in g.locals
    ensures Valid(CloseLocked(g, s, fault))
  {
    hide Core, CloseLocked;
    CloseLockedCore(g, s, fault);
    CloseLockedDoes(g, s, fault);
    forall t | t in g.transports
      ensures CloseLocked(g, s, fault).transports[t].disconnects != [] ==> g.transports[t].disconnects != []
    {
      CloseShortens(g, s, fault, t);
    }
    OnlineKept(g, CloseLocked(g, s, fault));
    hide Online;
  }

  /** The notify handler writes the failure status and steps aside. */
  lemma NotifiedDoes(g: Graph, s: Ref)
    requires Valid(g) && s in g.locals && g.locals[s].awaiting
    ensures var m := g.locals[s].(awaiting := false, out := g.locals[s].out + [Spec.FailStatus]);
            var e := Edit(g, s, m);
            Valid(e) && Only(g, e, s) && e.transports == g.transports
  {
    var l := g.locals[s];
    var m := l.(awaiting := false, out := l.out + [Spec.FailStatus]);
    assert l.queue != [] && !l.closing ==> l.peer.Some? by {
      assert s in g.closing ==> ClosingOk(g, s);
    }
    Editable(g, s, m);
    hide Core;
    EditCore(g, s, m);
    OnlineKept(g, Edit(g, s, m));
    hide Online, Only;
  }

  /** s->close(s) does what `SocketSpec` says, including the failure status. */
  lemma CloseDoes(g: Graph, s: Ref, fault: bool)
    requires Valid(g) && s in g.locals
    ensures var h := Close(g, s, fault);
            && Valid(h) && Only(g, h, s)
            && View(h, s) == Spec.Close(View(g, s), fault).sock
            && (if g.locals[s].peer.Some? then
                  && HasLink(g, s)
                  && Sends(g, h, LinkOf(g, s), [Clse(g.locals[s].id, g.remotes[g.locals[s].peer.value].id)])
                else SendsNothing(g, h))
  {
    var l := g.locals[s];
    var e := if l.awaiting then Edit(g, s, l.(awaiting := false, out := l.out + [Spec.FailStatus])) else g;
    hide Core, Online, Only, CloseLocked, Spec.CloseLocked;
    if l.awaiting {
      NotifiedDoes(g, s);
      CloseLockedOnline(e, s, fault);
      CloseLockedDoes(e, s, fault);
      OnlyTrans(g, e, CloseLocked(e, s, fault), s);
    } else {
      CloseLockedOnline(g, s, fault);
      CloseLockedDoes(g, s, fault);
    }
  }

  /** What socket s says on its link. */
  function Said(g: Graph, s: Ref, m: Spec.Msg): Wire
    requires HasLink(g, s)
  {
    var id := g.locals[s].id;
    var to := g.remotes[g.locals[s].peer.value].id;
    match m
    case MOkay => Okay(id, to)
    case MWrite(d) => Write(id, to, d)
    case _ => Clse(id, to)
  }

  function SaidAll(g: Graph, s: Ref, msgs: seq<Spec.Msg>): seq<Wire>
    requires HasLink(g, s)
  {
    if msgs == [] then [] else [Said(g, s, msgs[0])] + SaidAll(g, s, msgs[1..])
  }

  lemma {:induction false} SaidAppend(g: Graph, h: Graph, s: Ref, a: seq<Spec.Msg>, b: seq<Spec.Msg>)
    requires HasLink(g, s) && HasLink(h, s) && forall m :: Said(g, s, m) == Said(h, s, m)
    ensures SaidAll(g, s, a + b) == SaidAll(g, s, a) + SaidAll(h, s, b)
    decreases |a| + |b|
  {
    hide Said, HasLink;
    if a != [] {
      assert (a + b)[1..] == a[1..] + b;
      SaidAppend(g, h, s, a[1..], b);
    } else if b != [] {
      assert a + b == b && b[1..] == [] + b[1..];
      SaidAppend(g, h, s, [], b[1..]);
    }
  }

  lemma SaidOne(g: Graph, s: Ref, m: Spec.Msg)
    requires HasLink(g, s)
    ensures SaidAll(g, s, [m]) == [Said(g, s, m)]
  {
  }

  lemma LinkDoes(g: Graph, s: Ref, id: nat, t: Ref)
    requires s in g.locals && t in g.transports && g.nextRef !in g.remotes
    requires g.locals[s].peer.None?
    ensures Only(g, Link(g, s, id, t), s) && SendsNothing(g, Link(g, s, id, t))
    ensures Link(g, s, id, t).transports[t].disconnects == g.transports[t].disconnects + [OfSocket(g.nextRef)]
  {
  }

  lemma LinkView(g: Graph, s: Ref, id: nat, t: Ref)
    requires s in g.locals && t in g.transports && !g.locals[s].closing
    ensures View(Link(g, s, id, t), s) == View(g, s).(phase := Spec.Linked, ever := true)
  {
  }

  lemma LinkOnline(g: Graph, s: Ref, id: nat, t: Ref)
    requires Valid(g) && s in g.active && s in g.locals && g.locals[s].peer.None? && !g.locals[s].awaiting
    requires t in g.transports && id != 0 && g.transports[t].online
    ensures Valid(Link(g, s, id, t))
    ensures Only(g, Link(g, s, id, t), s) && SendsNothing(g, Link(g, s, id, t))
  {
    hide Core;
    FreshRef(g);
    LinkCore(g, s, id, t);
    OnlineKept(g, Link(g, s, id, t));
    LinkDoes(g, s, id, t);
    hide Online, Only;
  }

  /** READY does what `SocketSpec` says to the socket it names, or nothing. */
  lemma OkayDoes(g: Graph, t: Ref, from: nat, to: nat)
    requires Valid(g) && t in g.transports
    ensures var h := OnOkay(g, t, from, to);
            && Valid(h) && SendsNothing(g, h)
            && (if !g.transports[t].online || from == 0 || to == 0 || Find(g, to, 0).None? then h == g
                else
                  var s := Find(g, to, 0).value;
                  if g.locals[s].peer.Some? && !PeerIs(g, s, from) then h == g
                  else Only(g, h, s) && View(h, s) == Spec.OnOkay(View(g, s)))
  {
    hide Core, Only, FindIn, Link, MakeReady;
    if g.transports[t].online && from != 0 && to != 0 && Find(g, to, 0).Some? {
      var s := Find(g, to, 0).value;
      ReadyCore(g, s);
      var m := MakeReady(g, s);
      ActiveHere(g, s);
      OnlineKept(g, m);
      if g.locals[s].peer.None? {
        LinkOnline(m, s, from, t);
        LinkView(m, s, from, t);
        OnlyTrans(g, m, Link(m, s, from, t), s);
      }
    }
  }

  /** CLOSE closes the socket it names, or nothing. */
  lemma ClseDoes(g: Graph, t: Ref, from: nat, to: nat)
    requires Valid(g) && t in g.transports
    ensures var h := OnClse(g, t, from, to);
            && Valid(h)
            && (if !g.transports[t].online || to == 0 || Find(g, to, from).None? then h == g
                else
                  var s := Find(g, to, from).value;
                  if from == 0 && HasLink(g, s) && LinkOf(g, s) != t then h == g
                  else
                    && Only(g, h, s) && View(h, s) == Spec.Close(View(g, s), false).sock
                    && (if g.locals[s].peer.Some? then HasLink(g, s)
                          && Sends(g, h, LinkOf(g, s), [Said(g, s, Spec.MClose)])
                        else SendsNothing(g, h)))
  {
    hide Valid, Close, Only;
    if g.transports[t].online && to != 0 && Find(g, to, from).Some? {
      var s := Find(g, to, from).value;
      CloseDoes(g, s, false);
    }
  }

  /** What a handler that answers with r must have done to socket s. */
  ghost predicate Answers(g: Graph, h: Graph, s: Ref, r: Spec.Reply) {
    && HasLink(g, s) && Only(g, h, s) && View(h, s) == r.sock
    && Sends(g, h, LinkOf(g, s), SaidAll(g, s, r.msgs))
  }

  lemma CoreOf(g: Graph)
    requires Valid(g)
    ensures Core(g)
  {
  }

  lemma CloseAnswers(g: Graph, s: Ref, fault: bool)
    requires Valid(g) && HasLink(g, s)
    ensures Valid(Close(g, s, fault)) && Answers(g, Close(g, s, fault), s, Spec.Close(View(g, s), fault))
  {
    hide Valid, Only, Close, Core;
    CoreOf(g);
    LinkIsActive(g, s);
    CloseDoes(g, s, fault);
    var msgs := Spec.Close(View(g, s), fault).msgs;
    assert msgs == [Spec.MClose];
    hide Spec.Close;
    SaidOne(g, s, Spec.MClose);
  }

  /** Editing the fields of a linked socket that no link depends on. */
  lemma EditAnswers(g: Graph, s: Ref, l: Local)
    requires Valid(g) && HasLink(g, s) && SameLinks(g.locals[s], l)
    ensures var h := Edit(g, s, l);
            && Valid(h) && Only(g, h, s) && h.transports == g.transports && h.remotes == g.remotes
            && HasLink(h, s) && LinkOf(h, s) == LinkOf(g, s)
            && Answers(g, h, s, Spec.Reply(AsSock(l), []))
  {
    hide Core;
    EditCore(g, s, l);
    OnlineKept(g, Edit(g, s, l));
    hide Online, Only;
  }

  /** Two steps on the same link add up. */
  lemma SendsTrans(g: Graph, h: Graph, k: Graph, t: Ref, x: seq<Wire>, y: seq<Wire>)
    requires Sends(g, h, t, x) && Sends(h, k, t, y)
    ensures Sends(g, k, t, x + y)
  {
    forall u | u in g.transports
      ensures k.transports[u].sent == g.transports[u].sent + (if u == t then x + y else [])
    {
      assert g.transports[u].sent + x + y == g.transports[u].sent + (x + y);
    }
  }

  lemma AnswersTrans(g: Graph, h: Graph, k: Graph, s: Ref, a: Spec.Reply, b: Spec.Reply)
    requires Answers(g, h, s, a) && Answers(h, k, s, b) && LinkOf(h, s) == LinkOf(g, s)
    requires forall m :: Said(g, s, m) == Said(h, s, m)
    ensures Answers(g, k, s, Spec.Reply(b.sock, a.msgs + b.msgs))
  {
    hide Only, Sends, SaidAll;
    OnlyTrans(g, h, k, s);
    SaidAppend(g, h, s, a.msgs, b.msgs);
    SendsTrans(g, h, k, LinkOf(g, s), SaidAll(g, s, a.msgs), SaidAll(h, s, b.msgs));
  }

  lemma FoundIsLinked(g: Graph, to: nat, from: nat)
    requires Valid(g) && from != 0 && Find(g, to, from).Some?
    ensures HasLink(g, Find(g, to, from).value) && View(g, Find(g, to, from).value).phase.Linked?
  {
    var s := Find(g, to, from).value;
    LinkExists(g, s);
    LinkIsActive(g, s);
  }

  /** Editing a linked socket and then closing it. */
  lemma EditThenClose(g: Graph, s: Ref, l: Local)
    requires Valid(g) && HasLink(g, s) && SameLinks(g.locals[s], l)
    ensures var h := Close(Edit(g, s, l), s, true);
            Valid(h) && Answers(g, h, s, Spec.Close(AsSock(l), true))
  {
    hide Valid, Close, Answers;
    var e := Edit(g, s, l);
    EditAnswers(g, s, l);
    CloseAnswers(e, s, true);
    var r := Spec.Close(AsSock(l), true);
    AnswersTrans(g, e, Close(e, s, true), s, Spec.Reply(AsSock(l), []), r);
    assert [] + r.msgs == r.msgs;
  }

  lemma LinkedFields(g: Graph, s: Ref)
    requires Valid(g) && HasLink(g, s)
    ensures !g.locals[s].closing && !g.locals[s].awaiting && (g.locals[s].wantWrite <==> g.locals[s].queue != [])
    ensures s in g.active
  {
    LinkIsActive(g, s);
    LinkExists(g, s);
    ActiveHere(g, s);
  }

  /** What `SocketSpec` makes of a WRITE, in the fields of the graph. */
  lemma OnWriteParts(l: Local, data: bytes, env: seq<Spec.WriteResult>)
    ensures var w := Spec.FirstWrite(data, env);
            var m := l.(out := l.out + [Spec.Chunk(data[..w.0])]);
            var want := Spec.OnWrite(AsSock(l), data, env);
            if l.queue != [] then want == Spec.Reply(AsSock(l.(queue := l.queue + [data], wantWrite := true)), [])
            else match w.1
              case Drained => want == Spec.Reply(AsSock(m), [Spec.MOkay])
              case Blocked => want == Spec.Reply(AsSock(m.(queue := [data[w.0..]], wantWrite := true)), [])
              case Broken => want == Spec.Close(AsSock(m), true) && want.msgs != [Spec.MOkay]
  {
    hide Spec.FirstWrite;
  }

  lemma EnqueueDoes(g: Graph, s: Ref, data: bytes, env: seq<Spec.WriteResult>)
    requires Valid(g) && HasLink(g, s)
    ensures var r := Enqueue(g, s, data, env);
            var want := Spec.OnWrite(View(g, s), data, env);
            && Valid(r.0) && (r.1 <==> want.msgs == [Spec.MOkay])
            && Answers(g, r.0, s, if r.1 then Spec.Reply(want.sock, []) else want)
            && (r.1 ==> HasLink(r.0, s) && LinkOf(r.0, s) == LinkOf(g, s))
  {
    hide Valid, Close, Answers, Spec.FirstWrite, Spec.Close, Spec.OnWrite, AsSock;
    LinkedFields(g, s);
    var l := g.locals[s];
    OnWriteParts(l, data, env);
    if l.queue != [] {
      EditAnswers(g, s, l.(queue := l.queue + [data], wantWrite := true));
    } else {
      var w := Spec.FirstWrite(data, env);
      var m := l.(out := l.out + [Spec.Chunk(data[..w.0])]);
      match w.1
      case Blocked => EditAnswers(g, s, m.(queue := [data[w.0..]], wantWrite := true));
      case Drained => EditAnswers(g, s, m);
      case Broken => EditThenClose(g, s, m);
    }
  }

  lemma SendOnValid(g: Graph, t: Ref, w: Wire, s: Ref)
    requires Valid(g) && t in g.transports
    ensures Valid(SendOn(g, t, w)) && Only(g, SendOn(g, t, w), s)
  {
    SendOnWired(g, t, w);
    hide Wired, Backed;
  }

  lemma SendsOne(g: Graph, h: Graph, t: Ref, w: Wire)
    requires Sends(g, h, t, []) && t in g.transports
    ensures Sends(g, SendOn(h, t, w), t, [w])
  {
    assert g.transports[t].sent + [] == g.transports[t].sent;
  }

  lemma SendAnswers(g: Graph, h: Graph, s: Ref, a: Spec.Reply, m: Spec.Msg)
    requires Answers(g, h, s, a) && a.msgs == [] && Valid(h) && LinkOf(g, s) in h.transports
    ensures var k := SendOn(h, LinkOf(g, s), Said(g, s, m));
            Valid(k) && Answers(g, k, s, Spec.Reply(a.sock, [m]))
  {
    var t := LinkOf(g, s);
    var w := Said(g, s, m);
    var k := SendOn(h, t, w);
    assert View(k, s) == View(h, s);
    hide Valid, Only, Sends, View, SendOn, Said;
    SaidOne(g, s, m);
    SendsOne(g, h, t, w);
    SendOnValid(h, t, w, s);
    OnlyTrans(g, h, k, s);
  }

  lemma NothingSent(g: Graph, h: Graph, t: Ref)
    requires Sends(g, h, t, [])
    ensures SendsNothing(g, h)
  {
    assert forall u :: u in g.transports ==> g.transports[u].sent + [] == g.transports[u].sent;
  }

  /** READY on t, on behalf of a socket whose stream may be elsewhere. */
  lemma SendElsewhere(g: Graph, h: Graph, s: Ref, a: Spec.Reply, t: Ref, w: Wire)
    requires Answers(g, h, s, a) && a.msgs == [] && Valid(h) && t in h.transports
    ensures var k := SendOn(h, t, w);
            Valid(k) && Only(g, k, s) && View(k, s) == a.sock && Sends(g, k, t, [w])
  {
    hide Valid, Only;
    var k := SendOn(h, t, w);
    assert View(k, s) == View(h, s);
    NothingSent(g, h, LinkOf(g, s));
    hide Sends, View, SendOn, SaidAll;
    SendsThen(g, h, t, w);
    SendOnValid(h, t, w, s);
    OnlyTrans(g, h, k, s);
  }

  /**
   WRITE does what `SocketSpec` says to the linked socket it names, and nothing if it names none. It
   is answered on the stream of that socket, except for READY, which goes where the WRITE came from.
   */
  lemma WriteDoes(g: Graph, t: Ref, from: nat, to: nat, data: bytes, env: seq<Spec.WriteResult>)
    requires Valid(g) && t in g.transports
    ensures var h := OnWrite(g, t, from, to, data, env);
            && Valid(h)
            && (if !g.transports[t].online || from == 0 || to == 0 || Find(g, to, from).None? then h == g
                else
                  var s := Find(g, to, from).value;
                  var want := Spec.OnWrite(View(g, s), data, env);
                  && HasLink(g, s) && Only(g, h, s) && View(h, s) == want.sock
                  && if want.msgs == [Spec.MOkay] then Sends(g, h, t, [Okay(g.locals[s].id, from)])
                     else Sends(g, h, LinkOf(g, s), SaidAll(g, s, want.msgs)))
  {
    hide Valid, Enqueue, Only, FindIn, Spec.OnWrite, Sends, View;
    if g.transports[t].online && from != 0 && to != 0 && Find(g, to, from).Some? {
      var s := Find(g, to, from).value;
      FoundIsLinked(g, to, from);
      EnqueueDoes(g, s, data, env);
      var r := Enqueue(g, s, data, env);
      if r.1 {
        NothingSent(g, r.0, LinkOf(g, s));
        var a := Spec.Reply(Spec.OnWrite(View(g, s), data, env).sock, []);
        SendElsewhere(g, r.0, s, a, t, Okay(g.locals[s].id, from));
      }
    }
  }

  /** A WRITE over the transport of the stream is answered on the stream. */
  lemma WriteAnswers(g: Graph, t: Ref, from: nat, to: nat, data: bytes, env: seq<Spec.WriteResult>)
    requires Valid(g) && t in g.transports && g.transports[t].online && from != 0 && to != 0 && Find(g, to, from).Some?
    requires HasLink(g, Find(g, to, from).value) && LinkOf(g, Find(g, to, from).value) == t
    ensures var s := Find(g, to, from).value;
            Answers(g, OnWrite(g, t, from, to, data, env), s, Spec.OnWrite(View(g, s), data, env))
  {
    hide Valid, FindIn, Only, Spec.OnWrite, Sends, View, OnWrite, SaidAll;
    WriteDoes(g, t, from, to, data, env);
    var s := Find(g, to, from).value;
    SaidOne(g, s, Spec.MOkay);
  }

  lemma FreshRef(g: Graph)
    requires Core(g)
    ensures g.nextRef !in g.locals && g.nextRef !in g.past && g.nextRef !in g.remotes
  {
    hide Listed, Linked, Sessions, Forwarded, Backed;
  }

  lemma InstallDoes(g: Graph)
    requires Valid(g)
    ensures var h := Install(g);
            && Valid(h) && Only(g, h, g.nextRef) && SendsNothing(g, h) && g.nextRef in h.active
            && View(h, g.nextRef) == Spec.DialSock(false) && h.active == g.active + [g.nextRef]
  {
    hide Core, Online;
    FreshRef(g);
    InstallCore(g);
    OnlineKept(g, Install(g));
  }

  /** A new socket, linked and ready. */
  lemma ServeDoes(g: Graph, t: Ref, from: nat)
    requires Valid(g) && t in g.transports && g.transports[t].online && from != 0
    ensures var s := g.nextRef;
            var h := Link(MakeReady(Install(g), s), s, from, t);
            && Valid(h) && Only(g, h, s) && SendsNothing(g, h)
            && View(h, s) == Spec.ServiceSock && PeerIs(h, s, from)
  {
    var s := g.nextRef;
    var i := Install(g);
    InstallDoes(g);
    ReadyCore(i, s);
    var m := MakeReady(i, s);
    hide Core;
    OnlineKept(i, m);
    hide Online, Only;
    OnlyTrans(g, i, m, s);
    LinkOnline(m, s, from, t);
    OnlyTrans(g, m, Link(m, s, from, t), s);
  }

  lemma SendsThen(g: Graph, k: Graph, t: Ref, w: Wire)
    requires SendsNothing(g, k) && t in g.transports
    ensures Sends(g, SendOn(k, t, w), t, [w])
  {
  }

  /** OPEN makes a linked, ready socket for an accepted service and answers on the same transport. */
  lemma OpenDoes(g: Graph, t: Ref, from: nat, to: nat, accept: bool)
    requires Valid(g) && t in g.transports
    ensures var h := OnOpen(g, t, from, to, accept);
            && Valid(h)
            && (if !g.transports[t].online || from == 0 || to != 0 then h == g
                else
                  var s := g.nextRef;
                  && s !in g.locals && Only(g, h, s)
                  && Sends(g, h, t, [if accept then Okay(g.nextId, from) else Clse(0, from)])
                  && (accept ==> View(h, s) == Spec.ServiceSock && PeerIs(h, s, from))
                  && (!accept ==> View(h, s) == View(g, s)))
  {
    FreshRef(g);
    hide Valid, Only, Link, MakeReady, Install, Sends, SendsNothing;
    if g.transports[t].online && from != 0 && to == 0 {
      var s := g.nextRef;
      if accept {
        ServeDoes(g, t, from);
        var k := Link(MakeReady(Install(g), s), s, from, t);
        SendOnValid(k, t, Okay(g.nextId, from), s);
        OnlyTrans(g, k, SendOn(k, t, Okay(g.nextId, from)), s);
        SendsThen(g, k, t, Okay(g.nextId, from));
      } else {
        SendOnValid(g, t, Clse(0, from), s);
        SendsThen(g, g, t, Clse(0, from));
      }
    }
  }

  // ---- descriptor events ----

  /** The FDE_WRITE half of local_socket_event_func. */
  function Writable(g: Graph, s: Ref, env: seq<Spec.WriteResult>): Graph
    requires s in g.locals
  {
    var l := g.locals[s];
    var d := Spec.DrainQueue(l.queue, env);
    var m := l.(out := l.out + [Spec.Chunk(d.sent)], queue := d.rest);
    match d.verdict
    case Blocked => Edit(g, s, m)
    case Broken => Close(Edit(g, s, m), s, true)
    case Drained =>
      if l.closing then Close(Edit(g, s, m), s, false)
      else
        var h := Edit(g, s, m.(wantWrite := false));
        if HasLink(h, s) then SendOn(h, LinkOf(h, s), Said(h, s, Spec.MOkay)) else h
  }

  /** The FDE_READ half; what is read while there is no peer is dropped. */
  function Readable(g: Graph, s: Ref, env: seq<Spec.ReadResult>): Graph
    requires s in g.locals
  {
    var l := g.locals[s];
    var r := Spec.ReadUp(MAX_PAYLOAD, env);
    var h := if r.0 == [] || !HasLink(g, s) then g
             else SendOn(Edit(g, s, l.(got := l.got + r.0, wantRead := false)), LinkOf(g, s),
                         Said(g, s, Spec.MWrite(r.0)));
    if r.1 && s in h.locals then Close(h, s, true) else h
  }

  /** The two sides of a write event on a linked socket, by what was written. */
  lemma WritableParts(g: Graph, s: Ref, env: seq<Spec.WriteResult>)
    requires HasLink(g, s) && !g.locals[s].closing
    ensures var l := g.locals[s];
            var d := Spec.DrainQueue(l.queue, env);
            var m := l.(out := l.out + [Spec.Chunk(d.sent)], queue := d.rest);
            var n := m.(wantWrite := false);
            match d.verdict
            case Blocked =>
              && Writable(g, s, env) == Edit(g, s, m)
              && Spec.OnWritable(View(g, s), env) == Spec.Reply(AsSock(m), [])
            case Broken =>
              && Writable(g, s, env) == Close(Edit(g, s, m), s, true)
              && Spec.OnWritable(View(g, s), env) == Spec.Close(AsSock(m), true)
            case Drained =>
              && Writable(g, s, env) == SendOn(Edit(g, s, n), LinkOf(g, s), Said(g, s, Spec.MOkay))
              && Spec.OnWritable(View(g, s), env) == Spec.Reply(AsSock(n), [Spec.MOkay])
  {
    hide Spec.DrainQueue, Close, Spec.Close, AsSock, Spec.OnWritable;
    OnWritableParts(g.locals[s], env);
  }

  lemma OnWritableParts(l: Local, env: seq<Spec.WriteResult>)
    requires !l.closing
    ensures var d := Spec.DrainQueue(l.queue, env);
            var m := l.(out := l.out + [Spec.Chunk(d.sent)], queue := d.rest);
            && AsSock(m.(wantWrite := false)) == AsSock(m)
            && Spec.OnWritable(AsSock(l), env) == match d.verdict
                                                  case Blocked => Spec.Reply(AsSock(m), [])
                                                  case Broken => Spec.Close(AsSock(m), true)
                                                  case Drained => Spec.Reply(AsSock(m), [Spec.MOkay])
  {
    hide Spec.DrainQueue, Spec.Close;
  }

  /** Backlog of a linked socket: what `SocketSpec` says, READY once it is gone. */
  lemma WritableLinked(g: Graph, s: Ref, env: seq<Spec.WriteResult>)
    requires Valid(g) && HasLink(g, s) && g.locals[s].queue != []
    ensures Valid(Writable(g, s, env)) && Answers(g, Writable(g, s, env), s, Spec.OnWritable(View(g, s), env))
  {
    LinkedFields(g, s);
    hide Valid, Close, Answers, Spec.DrainQueue, Spec.OnWritable, Writable, Spec.Close, SendOn, Said;
    WritableParts(g, s, env);
    var l := g.locals[s];
    var d := Spec.DrainQueue(l.queue, env);
    var m := l.(out := l.out + [Spec.Chunk(d.sent)], queue := d.rest);
    match d.verdict
    case Blocked => EditAnswers(g, s, m);
    case Broken => EditThenClose(g, s, m);
    case Drained => EditThenSay(g, s, m.(wantWrite := false), Spec.MOkay);
  }

  lemma ClosingFields(g: Graph, s: Ref)
    requires Valid(g) && s in g.closing
    ensures s in g.locals
    ensures var l := g.locals[s];
            l.closing && l.peer.None? && l.wantWrite && !l.wantRead && !l.awaiting && l.queue != []
  {
    assert ClosingOk(g, s);
  }

  lemma CloseOfClosing(g: Graph, s: Ref)
    requires s in g.locals && g.locals[s].peer.None? && g.locals[s].closing && !g.locals[s].awaiting
    ensures Close(g, s, false) == Bury(g, s)
  {
    assert g.locals[s].(fault := g.locals[s].fault || false) == g.locals[s];
    assert Edit(g, s, g.locals[s]) == g;
    hide Bury, Park;
  }

  /** The last word of a draining socket does not pass through a valid graph; the result does. */
  lemma DrainedGrave(g: Graph, s: Ref, m: Local)
    requires s in g.locals && m.peer.None? && m.closing && !m.awaiting
    ensures var h := Close(Edit(g, s, m), s, false);
            var x := Bury(g, s);
            && h == x.(past := h.past) && h.past.Keys == x.past.Keys && Only(g, h, s)
            && View(h, s) == Spec.Close(AsSock(m), false).sock
  {
    hide Without, Close, AsSock;
    var e := Edit(g, s, m);
    CloseOfClosing(e, s);
    assert e.locals - {s} == g.locals - {s};
    GraveSock(m);
  }

  lemma GraveSock(m: Local)
    requires m.peer.None? && m.closing && !m.awaiting
    ensures Spec.Close(AsSock(m), false).sock ==
            AsSock(m).(phase := Spec.Gone, queue := [], wantRead := false, awaiting := false)
  {
  }

  lemma DrainedDies(g: Graph, s: Ref, m: Local)
    requires Valid(g) && s in g.closing && s in g.locals
    requires m.peer.None? && m.closing && !m.awaiting
    ensures var h := Close(Edit(g, s, m), s, false);
            && Valid(h) && Only(g, h, s) && SendsNothing(g, h) && View(h, s) == Spec.Close(AsSock(m), false).sock
  {
    ClosingFields(g, s);
    BuryWired(g, s);
    var h := Close(Edit(g, s, m), s, false);
    var x := Bury(g, s);
    assert Core(x) by {
      hide Wired, Without;
    }
    hide Core, Close, Without, Edit;
    DrainedGrave(g, s, m);
    PastFrame(x, h);
    assert h.transports == g.transports;
    OnlineKept(g, h);
    hide Online, Only;
  }

  /** Part of the backlog of a closing socket is written, and perhaps the descriptor breaks. */
  lemma ClosingEdited(g: Graph, s: Ref, m: Local)
    requires Valid(g) && s in g.locals && g.locals[s].closing && g.locals[s].peer.None? && SameLinks(g.locals[s], m)
    ensures var e := Edit(g, s, m);
            && Valid(e) && Only(g, e, s) && SendsNothing(g, e)
            && Valid(Close(e, s, true)) && Only(g, Close(e, s, true), s) && SendsNothing(g, Close(e, s, true))
            && View(Close(e, s, true), s) == Spec.Close(AsSock(m), true).sock
  {
    hide Core, Close, Only, Online, Spec.Close;
    var e := Edit(g, s, m);
    EditCore(g, s, m);
    OnlineKept(g, e);
    CloseDoes(e, s, true);
    OnlyTrans(g, e, Close(e, s, true), s);
  }

  /** The two sides of a write event on a closing socket, by what was written. */
  lemma ClosingParts(g: Graph, s: Ref, env: seq<Spec.WriteResult>)
    requires s in g.locals && g.locals[s].closing
    ensures var l := g.locals[s];
            var d := Spec.DrainQueue(l.queue, env);
            var m := l.(out := l.out + [Spec.Chunk(d.sent)], queue := d.rest);
            var want := Spec.OnWritable(View(g, s), env).sock;
            match d.verdict
            case Blocked => Writable(g, s, env) == Edit(g, s, m) && want == AsSock(m)
            case Broken =>
              && Writable(g, s, env) == Close(Edit(g, s, m), s, true)
              && want == Spec.Close(AsSock(m), true).sock
            case Drained =>
              && Writable(g, s, env) == Close(Edit(g, s, m), s, false)
              && want == Spec.Close(AsSock(m), false).sock
  {
    hide Spec.DrainQueue, Close, Spec.Close;
  }

  /** Backlog of a closing socket: once it is gone the socket dies, silently. */
  lemma WritableClosing(g: Graph, s: Ref, env: seq<Spec.WriteResult>)
    requires Valid(g) && s in g.closing && s in g.locals
    ensures var h := Writable(g, s, env);
            && Valid(h) && Only(g, h, s) && SendsNothing(g, h)
            && View(h, s) == Spec.OnWritable(View(g, s), env).sock
  {
    ClosingFields(g, s);
    var l := g.locals[s];
    var d := Spec.DrainQueue(l.queue, env);
    var m := l.(out := l.out + [Spec.Chunk(d.sent)], queue := d.rest);
    assert View(Edit(g, s, m), s) == AsSock(m);
    ClosingParts(g, s, env);
    hide Spec.DrainQueue, Valid, Close, Only, SendsNothing, Spec.Close, Writable, Spec.OnWritable, View, AsSock, Edit;
    if d.rest != [] {
      ClosingEdited(g, s, m);
    } else {
      DrainedDies(g, s, m);
    }
  }

  /** Editing a linked socket and saying something. */
  lemma EditThenSay(g: Graph, s: Ref, l: Local, m: Spec.Msg)
    requires Valid(g) && HasLink(g, s) && SameLinks(g.locals[s], l)
    ensures var k := SendOn(Edit(g, s, l), LinkOf(g, s), Said(g, s, m));
            && Valid(k) && HasLink(k, s) && LinkOf(k, s) == LinkOf(g, s) && k.locals[s] == l
            && (forall n :: Said(k, s, n) == Said(g, s, n))
            && Answers(g, k, s, Spec.Reply(AsSock(l), [m]))
  {
    hide Valid, Answers;
    EditAnswers(g, s, l);
    SendAnswers(g, Edit(g, s, l), s, Spec.Reply(AsSock(l), []), m);
  }

  /** Editing a linked socket, saying something, and closing it. */
  lemma EditSayClose(g: Graph, s: Ref, l: Local, m: Spec.Msg)
    requires Valid(g) && HasLink(g, s) && SameLinks(g.locals[s], l)
    ensures var k := SendOn(Edit(g, s, l), LinkOf(g, s), Said(g, s, m));
            var c := Spec.Close(AsSock(l), true);
            Valid(Close(k, s, true)) && Answers(g, Close(k, s, true), s, Spec.Reply(c.sock, [m] + c.msgs))
  {
    hide Valid, Answers, Close, Spec.Close;
    var k := SendOn(Edit(g, s, l), LinkOf(g, s), Said(g, s, m));
    EditThenSay(g, s, l, m);
    CloseAnswers(k, s, true);
    AnswersTrans(g, k, Close(k, s, true), s, Spec.Reply(AsSock(l), [m]), Spec.Close(AsSock(l), true));
  }

  /** The graph side of a read event, by what was read. */
  lemma ReadableParts(g: Graph, s: Ref, env: seq<Spec.ReadResult>)
    requires HasLink(g, s)
    ensures var r := Spec.ReadUp(MAX_PAYLOAD, env);
            var l := g.locals[s].(got := g.locals[s].got + r.0, wantRead := false);
            var k := if r.0 == [] then g else SendOn(Edit(g, s, l), LinkOf(g, s), Said(g, s, Spec.MWrite(r.0)));
            s in k.locals && Readable(g, s, env) == if r.1 then Close(k, s, true) else k
  {
    hide Spec.ReadUp, Close;
  }

  /** The socket side of a read event, by what was read. */
  lemma OnReadableParts(g: Graph, s: Ref, env: seq<Spec.ReadResult>)
    requires HasLink(g, s)
    ensures var r := Spec.ReadUp(MAX_PAYLOAD, env);
            var l := if r.0 == [] then g.locals[s] else g.locals[s].(got := g.locals[s].got + r.0, wantRead := false);
            var said := if r.0 == [] then [] else [Spec.MWrite(r.0)];
            var c := Spec.Close(AsSock(l), true);
            Spec.OnReadable(View(g, s), env) == if r.1 then Spec.Reply(c.sock, said + c.msgs)
                  else Spec.Reply(AsSock(l), said)
  {
    hide Spec.ReadUp, Spec.Close;
  }

  lemma ReadEdit(g: Graph, s: Ref, data: bytes)
    requires Valid(g) && HasLink(g, s)
    ensures var l := g.locals[s];
            && SameLinks(l, l) && SameLinks(l, l.(got := l.got + data, wantRead := false))
            && Edit(g, s, l) == g && View(g, s) == AsSock(l)
  {
    hide Valid;
    LinkedFields(g, s);
  }

  /** Reading a linked socket does what `SocketSpec` says. */
  lemma ReadableLinked(g: Graph, s: Ref, env: seq<Spec.ReadResult>)
    requires Valid(g) && HasLink(g, s)
    ensures Valid(Readable(g, s, env)) && Answers(g, Readable(g, s, env), s, Spec.OnReadable(View(g, s), env))
  {
    hide Valid, Close, Answers, Spec.ReadUp, Spec.Close, Spec.OnReadable, Readable, SendOn, Said, SameLinks,
         LinkOf, View, AsSock, Edit;
    var l := g.locals[s];
    var r := Spec.ReadUp(MAX_PAYLOAD, env);
    var m := l.(got := l.got + r.0, wantRead := false);
    ReadEdit(g, s, r.0);
    ReadableParts(g, s, env);
    OnReadableParts(g, s, env);
    if r.0 == [] && r.1 {
      CloseAnswers(g, s, true);
      assert [] + Spec.Close(View(g, s), true).msgs == Spec.Close(View(g, s), true).msgs;
    } else if r.0 == [] {
      EditAnswers(g, s, l);
    } else if r.1 {
      EditSayClose(g, s, m, Spec.MWrite(r.0));
    } else {
      EditThenSay(g, s, m, Spec.MWrite(r.0));
    }
  }
}
