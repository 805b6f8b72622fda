/**
 The engine is an endpoint of `Link`: for the streams of one transport, every step of the engine's graph
 is the corresponding step of `Link`, with the same packets in the same order. So what `Link`
 proves of two endpoints holds of two engines.
 */
module Refine {
  import opened Octets
  import opened Lists
  import Spec = SocketSpec
  import opened Graph
  import opened Handlers
  import Isolation
  import Forwards
  import Runs
  import Safety
  import Ledger
  import Stream
  import Link

  // ---- packets ----

  predicate OfStream(w: Wire) {
    w.Open? || w.Okay? || w.Write? || w.Clse?
  }

  function AsPacket(w: Wire): Link.Packet
    requires OfStream(w)
  {
    match w
    case Open(from, to, _) => Link.Packet(from, to, Spec.MOpen)
    case Okay(from, to) => Link.Packet(from, to, Spec.MOkay)
    case Write(from, to, data) => Link.Packet(from, to, Spec.MWrite(data))
    case Clse(from, to) => Link.Packet(from, to, if from == 0 then Spec.MReject else Spec.MClose)
  }

  ghost predicate AllOfStreams(ws: seq<Wire>) {
    forall w :: w in ws ==> OfStream(w)
  }

  function AsPackets(ws: seq<Wire>): (ps: seq<Link.Packet>)
    requires AllOfStreams(ws)
    ensures |ps| == |ws| && forall i :: 0 <= i < |ws| ==> ps[i] == AsPacket(ws[i])
  {
    seq(|ws|, i requires 0 <= i < |ws| => AsPacket(ws[i]))
  }

  lemma PacketsAppend(a: seq<Wire>, b: seq<Wire>)
    requires AllOfStreams(a) && AllOfStreams(b)
    ensures AllOfStreams(a + b) && AsPackets(a + b) == AsPackets(a) + AsPackets(b)
  {
  }

  // ---- the abstraction ----

  /** Everything is on transport t, which is online, and the ids have not come round yet. */
  ghost predicate OnOne(g: Graph, t: Ref) {
    && t in g.transports && g.transports[t].online
    && (forall r :: r in g.remotes ==> g.remotes[r].transport == t)
    && g.issued < ID_CYCLE
  }

  /** The entry for socket s, under its name. */
  ghost predicate Shown(g: Graph, names: map<Ref, nat>, e: Link.Endpoint, s: Ref) {
    && s in names && names[s] in e.socks && e.socks[names[s]].sock == View(g, s) && 0 < names[s] < e.next
    && (s in g.locals ==> names[s] == g.locals[s].ticket + 1)
    && (s !in g.locals ==> View(g, s).phase.Gone?)
    && (HasLink(g, s) ==> e.socks[names[s]].peer == g.remotes[g.locals[s].peer.value].id)
  }

  ghost predicate Distinct(names: map<Ref, nat>) {
    forall s, u :: s in names && u in names && names[s] == names[u] ==> s == u
  }

  ghost predicate Covers(names: map<Ref, nat>, e: Link.Endpoint) {
    forall k :: k in e.socks ==> exists s :: s in names && names[s] == k
  }

  /** Endpoint e shows the graph: every socket that ever lived, under its own name. */
  ghost predicate Shows(g: Graph, names: map<Ref, nat>, e: Link.Endpoint) {
    && e.next == g.issued + 1 && Distinct(names) && Covers(names, e)
    && (forall s :: s in names <==> Runs.Known(g, s))
    && (forall s :: s in names ==> Shown(g, names, e, s))
  }

  lemma OnlyKnown(g: Graph, h: Graph, s: Ref, u: Ref)
    requires Only(g, h, s) && u != s
    ensures Runs.Known(h, u) <==> Runs.Known(g, u)
    ensures View(h, u) == View(g, u)
    ensures u in h.locals <==> u in g.locals
    ensures u in g.locals ==> h.locals[u] == g.locals[u]
  {
  }

  /** The link of another socket is as it was. */
  lemma OnlyLinks(g: Graph, h: Graph, s: Ref, u: Ref)
    requires Core(g) && Core(h) && Only(g, h, s) && u != s && HasLink(h, u)
    ensures HasLink(g, u) && h.remotes[h.locals[u].peer.value] == g.remotes[g.locals[u].peer.value]
  {
    LinkExists(h, u);
    hide Core;
  }

  lemma OthersShown(g: Graph, h: Graph, names: map<Ref, nat>, e: Link.Endpoint, f: Link.Endpoint, s: Ref, u: Ref)
    requires Core(g) && Core(h) && Only(g, h, s) && u != s && Shown(g, names, e, u)
    requires names[u] in f.socks && f.socks[names[u]] == e.socks[names[u]] && e.next <= f.next
    ensures Shown(h, names, f, u)
  {
    hide Core, Only, View;
    OnlyKnown(g, h, s, u);
    if HasLink(h, u) {
      OnlyLinks(g, h, s, u);
    }
  }

  /** A step on one socket is a change of its entry. */
  lemma TouchShows(g: Graph, h: Graph, names: map<Ref, nat>, e: Link.Endpoint, s: Ref, entry: Link.Entry)
    requires Core(g) && Core(h) && Shows(g, names, e) && s in names && Only(g, h, s) && Runs.Known(h, s)
    requires h.issued == g.issued
    requires Shown(h, names, e.(socks := e.socks[names[s] := entry]), s)
    ensures Shows(h, names, e.(socks := e.socks[names[s] := entry]))
  {
    hide Core, Only, View, HasLink;
    var f := e.(socks := e.socks[names[s] := entry]);
    forall u ensures u in names <==> Runs.Known(h, u) {
      if u != s { OnlyKnown(g, h, s, u); }
    }
    forall u | u in names ensures Shown(h, names, f, u) {
      if u != s {
        assert names[u] != names[s] && Shown(g, names, e, u);
        OthersShown(g, h, names, e, f, s, u);
      }
    }
  }

  lemma NextIsNew(g: Graph, names: map<Ref, nat>, e: Link.Endpoint)
    requires Shows(g, names, e)
    ensures e.next !in e.socks && forall s :: s in names ==> names[s] != e.next
  {
    hide View, HasLink;
    forall s | s in names ensures names[s] != e.next {
      assert Shown(g, names, e, s);
    }
  }

  /** A new socket is a new entry. */
  lemma InstallShows(g: Graph, h: Graph, names: map<Ref, nat>, e: Link.Endpoint, entry: Link.Entry,
                     served: map<nat, nat>)
    requires Core(g) && Core(h) && Shows(g, names, e) && !Runs.Known(g, g.nextRef) && Only(g, h, g.nextRef)
    requires h.issued == g.issued + 1 && Runs.Known(h, g.nextRef)
    requires Shown(h, names[g.nextRef := e.next], Link.Endpoint(e.next + 1, e.socks[e.next := entry], served),
                   g.nextRef)
    ensures Shows(h, names[g.nextRef := e.next], Link.Endpoint(e.next + 1, e.socks[e.next := entry], served))
  {
    hide Core, Only, View, HasLink;
    var s := g.nextRef;
    var more := names[s := e.next];
    var f := Link.Endpoint(e.next + 1, e.socks[e.next := entry], served);
    NextIsNew(g, names, e);
    forall u ensures u in more <==> Runs.Known(h, u) {
      if u != s { OnlyKnown(g, h, s, u); }
    }
    forall u | u in more ensures Shown(h, more, f, u) {
      if u != s {
        assert Shown(g, names, e, u);
        assert Shown(g, more, e, u);
        OthersShown(g, h, more, e, f, s, u);
      }
    }
    MoreNames(g, names, e, s, entry, served);
  }

  lemma MoreNames(g: Graph, names: map<Ref, nat>, e: Link.Endpoint, s: Ref, entry: Link.Entry, served: map<nat, nat>)
    requires Shows(g, names, e) && s !in names
    ensures Distinct(names[s := e.next])
    ensures Covers(names[s := e.next], Link.Endpoint(e.next + 1, e.socks[e.next := entry], served))
  {
    hide View, HasLink;
    var more := names[s := e.next];
    assert forall u :: u in names ==> Shown(g, names, e, u);
    var f := Link.Endpoint(e.next + 1, e.socks[e.next := entry], served);
    forall k | k in f.socks ensures exists u :: u in more && more[u] == k {
      if k == e.next {
        assert more[s] == k;
      } else {
        var u :| u in names && names[u] == k;
        assert u != s && more[u] == k;
      }
    }
  }

  // ---- finding a socket ----

  /** Before the ids come round, an active socket is known by its name. */
  lemma NameIsId(g: Graph, t: Ref, names: map<Ref, nat>, e: Link.Endpoint, s: Ref)
    requires Valid(g) && OnOne(g, t) && Shows(g, names, e) && s in g.active
    ensures s in g.locals && s in names && g.locals[s].id == names[s] && g.nextId == e.next
  {
    assert ActiveOk(g, s);
    assert Runs.Known(g, s) && Shown(g, names, e, s);
    SmallTicket(g, s);
    hide Valid, View, HasLink;
  }

  lemma SmallTicket(g: Graph, s: Ref)
    requires Valid(g) && s in g.active && s in g.locals && g.issued < ID_CYCLE
    ensures g.locals[s].id == g.locals[s].ticket + 1 && g.nextId == g.issued + 1
  {
    assert ActiveOk(g, s);
    hide Linked, Sessions, Forwarded, Backed, Online, NoDup;
  }

  lemma NextName(g: Graph, t: Ref, names: map<Ref, nat>, e: Link.Endpoint)
    requires Valid(g) && OnOne(g, t) && Shows(g, names, e)
    ensures g.nextId == e.next
  {
    hide Listed, Linked, Sessions, Forwarded, Backed, Online, View, HasLink;
  }

  /** A socket on the active list is one that `Link` can find. */
  lemma ActiveIffActive(g: Graph, s: Ref)
    requires Valid(g) && s in g.locals
    ensures s in g.active <==> Spec.Active(View(g, s))
  {
    if s in g.active {
      ActiveHere(g, s);
    } else {
      ClosingFields(g, s);
    }
  }

  /** The link that find_local_socket asks for. */
  lemma PeerShown(g: Graph, names: map<Ref, nat>, e: Link.Endpoint, s: Ref, peer: nat)
    requires Valid(g) && Shows(g, names, e) && s in g.active && s in names && peer != 0
    ensures PeerIs(g, s, peer) <==> e.socks[names[s]].sock.phase.Linked? && e.socks[names[s]].peer == peer
  {
    ActiveHere(g, s);
    hide Valid;
    assert Shown(g, names, e, s);
  }

  /** find_local_socket finds the socket whose entry `Link` finds, or neither finds any. */
  lemma FindShows(g: Graph, t: Ref, names: map<Ref, nat>, e: Link.Endpoint, id: nat, peer: nat)
    requires Valid(g) && OnOne(g, t) && Shows(g, names, e)
    ensures Find(g, id, peer).Some? <==> Link.Found(e, id, peer)
    ensures Find(g, id, peer).Some? ==>
              var s := Find(g, id, peer).value; s in g.active && s in g.locals && s in names && names[s] == id
  {
    if Find(g, id, peer).Some? {
      FoundShows(g, t, names, e, id, peer);
    }
    if Link.Found(e, id, peer) {
      ShownIsFound(g, t, names, e, id, peer);
    }
  }

  lemma FoundShows(g: Graph, t: Ref, names: map<Ref, nat>, e: Link.Endpoint, id: nat, peer: nat)
    requires Valid(g) && OnOne(g, t) && Shows(g, names, e) && Find(g, id, peer).Some?
    ensures Link.Found(e, id, peer)
    ensures var s := Find(g, id, peer).value; s in g.active && s in g.locals && s in names && names[s] == id
  {
    hide Valid, FindIn, View, OnOne;
    var s := Find(g, id, peer).value;
    NameIsId(g, t, names, e, s);
    assert Shown(g, names, e, s);
    ActiveIffActive(g, s);
    if peer != 0 { PeerShown(g, names, e, s, peer); }
  }

  lemma ShownIsFound(g: Graph, t: Ref, names: map<Ref, nat>, e: Link.Endpoint, id: nat, peer: nat)
    requires Valid(g) && OnOne(g, t) && Shows(g, names, e) && Link.Found(e, id, peer)
    ensures Find(g, id, peer).Some?
  {
    hide Valid, FindIn, View, OnOne, PeerIs;
    var s :| s in names && names[s] == id;
    assert Shown(g, names, e, s);
    assert s in g.locals;
    ActiveIffActive(g, s);
    AllNamed(g, t, names, e);
    if peer != 0 { PeerShown(g, names, e, s, peer); }
    FindExact(g, g.active, id, peer, s);
  }

  lemma AllNamed(g: Graph, t: Ref, names: map<Ref, nat>, e: Link.Endpoint)
    requires Valid(g) && OnOne(g, t) && Shows(g, names, e)
    ensures forall u :: u in g.active ==> u in g.locals && u in names && g.locals[u].id == names[u]
    ensures forall u, v :: u in g.active && v in g.active && u in g.locals && v in g.locals ==>
              (g.locals[u].id == g.locals[v].id ==> u == v)
  {
    hide Valid, View, OnOne, HasLink;
    forall u | u in g.active ensures u in g.locals && u in names && g.locals[u].id == names[u] {
      NameIsId(g, t, names, e, u);
    }
  }

  // ---- what is said ----

  predicate Sayable(msgs: seq<Spec.Msg>) {
    forall m :: m in msgs ==> m.MOkay? || m.MWrite? || m.MClose?
  }

  lemma {:induction false} SaidShows(g: Graph, s: Ref, msgs: seq<Spec.Msg>)
    requires HasLink(g, s) && Sayable(msgs) && g.locals[s].id != 0
    ensures AllOfStreams(SaidAll(g, s, msgs))
    ensures AsPackets(SaidAll(g, s, msgs)) == Link.Address(g.locals[s].id, g.remotes[g.locals[s].peer.value].id, msgs)
  {
    hide Link.Address;
    var from, to := g.locals[s].id, g.remotes[g.locals[s].peer.value].id;
    AddressFirst(from, to, msgs);
    if msgs != [] {
      SaidShows(g, s, msgs[1..]);
      PacketsAppend([Said(g, s, msgs[0])], SaidAll(g, s, msgs[1..]));
      assert AsPackets([Said(g, s, msgs[0])]) == [Link.Packet(from, to, msgs[0])];
    }
  }

  lemma AddressFirst(from: nat, to: nat, msgs: seq<Spec.Msg>)
    ensures Link.Address(from, to, msgs) ==
            if msgs == [] then [] else [Link.Packet(from, to, msgs[0])] + Link.Address(from, to, msgs[1..])
  {
  }

  lemma WriteSayable(a: Spec.Sock, d: bytes, env: seq<Spec.WriteResult>)
    ensures Sayable(Spec.OnWrite(a, d, env).msgs)
  {
    hide Spec.FirstWrite;
  }

  lemma WritableSayable(a: Spec.Sock, env: seq<Spec.WriteResult>)
    ensures Sayable(Spec.OnWritable(a, env).msgs)
  {
    hide Spec.DrainQueue;
  }

  lemma ReadableSayable(a: Spec.Sock, env: seq<Spec.ReadResult>)
    ensures Sayable(Spec.OnReadable(a, env).msgs)
  {
    hide Spec.ReadUp;
  }

  /** The packets that went out on t. */
  ghost predicate Speaks(g: Graph, h: Graph, t: Ref, ps: seq<Link.Packet>) {
    && t in g.transports && t in h.transports && g.transports[t].sent <= h.transports[t].sent
    && var ws := h.transports[t].sent[|g.transports[t].sent|..];
       AllOfStreams(ws) && AsPackets(ws) == ps
  }

  lemma SendsSpeaks(g: Graph, h: Graph, t: Ref, ws: seq<Wire>)
    requires Sends(g, h, t, ws) && t in g.transports && AllOfStreams(ws)
    ensures Speaks(g, h, t, AsPackets(ws))
  {
    assert h.transports[t].sent[|g.transports[t].sent|..] == ws;
  }

  lemma NothingSpeaks(g: Graph, h: Graph, t: Ref)
    requires SendsNothing(g, h) && t in g.transports
    ensures Speaks(g, h, t, [])
  {
    assert h.transports[t].sent[|g.transports[t].sent|..] == [];
  }

  // ---- what a step leaves alone ----

  ghost predicate Books(g: Graph, h: Graph, s: Ref) {
    && h.issued == g.issued
    && (s in h.locals ==> s in g.locals && h.locals[s].ticket == g.locals[s].ticket)
    && (s !in h.locals ==> s in h.past && h.past[s].phase.Gone?)
    && (HasLink(h, s) ==> HasLink(g, s) && h.remotes[h.locals[s].peer.value] == g.remotes[g.locals[s].peer.value])
  }

  lemma EditBooks(g: Graph, s: Ref, l: Local)
    requires s in g.locals && l.ticket == g.locals[s].ticket && l.peer == g.locals[s].peer
    ensures Books(g, Edit(g, s, l), s)
  {
  }

  lemma BooksTrans(g: Graph, h: Graph, k: Graph, s: Ref)
    requires Books(g, h, s) && Books(h, k, s)
    ensures Books(g, k, s)
  {
    hide HasLink;
  }

  lemma BuryBooks(g: Graph, s: Ref)
    requires s in g.locals
    ensures Books(g, Bury(g, s), s)
  {
    hide Without, AsSock;
  }

  lemma ParkBooks(g: Graph, s: Ref)
    requires s in g.locals && g.locals[s].peer.None?
    ensures Books(g, Park(g, s), s)
  {
    hide Without;
  }

  lemma RetireBooks(g: Graph, s: Ref, fault: bool)
    requires s in g.locals && g.locals[s].peer.None?
    ensures Books(g, Retire(g, s, fault), s)
  {
    hide Books, Bury, Park;
    var l := g.locals[s].(fault := g.locals[s].fault || fault);
    EditBooks(g, s, l);
    BuryBooks(Edit(g, s, l), s);
    ParkBooks(Edit(g, s, l), s);
    BooksTrans(g, Edit(g, s, l), Retire(g, s, fault), s);
  }

  lemma UnlinkBooks(g: Graph, s: Ref)
    requires HasLink(g, s)
    ensures Books(g, Shutdown(g, s), s) && HasLink(Shutdown(g, s), s)
    ensures Books(Shutdown(g, s), Unlink(Shutdown(g, s), s), s)
    ensures s in Unlink(Shutdown(g, s), s).locals && Unlink(Shutdown(g, s), s).locals[s].peer.None?
  {
    hide Without;
  }

  lemma CloseLockedBooks(g: Graph, s: Ref, fault: bool)
    requires s in g.locals && (g.locals[s].peer.Some? ==> HasLink(g, s))
    ensures Books(g, CloseLocked(g, s, fault), s)
  {
    hide Books, Without, Retire, Unlink, Shutdown;
    if HasLink(g, s) {
      UnlinkBooks(g, s);
      var u := Unlink(Shutdown(g, s), s);
      RetireBooks(u, s, fault);
      BooksTrans(g, Shutdown(g, s), u, s);
      BooksTrans(g, u, Retire(u, s, fault), s);
    } else {
      RetireBooks(g, s, fault);
    }
  }

  lemma CloseBooks(g: Graph, s: Ref, fault: bool)
    requires s in g.locals && (g.locals[s].peer.Some? ==> HasLink(g, s))
    ensures Books(g, Close(g, s, fault), s)
  {
    hide Books, CloseLocked;
    var l := g.locals[s];
    var m := if l.awaiting then l.(awaiting := false, out := l.out + [Spec.FailStatus]) else l;
    var e := if l.awaiting then Edit(g, s, m) else g;
    SelfBooks(g, s);
    EditBooks(g, s, m);
    CloseLockedBooks(e, s, fault);
    BooksTrans(g, e, CloseLocked(e, s, fault), s);
  }

  lemma SelfBooks(g: Graph, s: Ref)
    requires s in g.locals
    ensures Books(g, g, s)
  {
  }

  lemma SendBooks(g: Graph, s: Ref, t: Ref, w: Wire)
    requires s in g.locals && t in g.transports
    ensures Books(g, SendOn(g, t, w), s)
  {
  }

  // ---- one socket, one entry ----

  lemma OnOneKept(g: Graph, h: Graph, t: Ref, s: Ref)
    requires OnOne(g, t) && Only(g, h, s) && Core(h) && h.issued < ID_CYCLE && (HasLink(h, s) ==> LinkOf(h, s) == t)
    ensures OnOne(h, t)
  {
    forall r | r in h.remotes ensures h.remotes[r].transport == t {
      assert RemoteOk(h, r);
    }
    hide Core;
  }

  /** What a step of socket s must have done for its entry to be changed by reply r. */
  lemma EntryShows(g: Graph, h: Graph, names: map<Ref, nat>, e: Link.Endpoint, s: Ref, sock: Spec.Sock)
    requires Core(g) && Core(h) && Shows(g, names, e)
    requires s in g.locals && s in names && Only(g, h, s) && Books(g, h, s) && View(h, s) == sock
    ensures Shows(h, names, e.(socks := e.socks[names[s] := e.socks[names[s]].(sock := sock)]))
  {
    hide Core, Only, View;
    assert Shown(g, names, e, s);
    var f := e.(socks := e.socks[names[s] := e.socks[names[s]].(sock := sock)]);
    assert Shown(h, names, f, s) by {
      GoneView(h, s);
    }
    TouchShows(g, h, names, e, s, e.socks[names[s]].(sock := sock));
  }

  lemma ReplyShows(g: Graph, h: Graph, t: Ref, names: map<Ref, nat>, e: Link.Endpoint, s: Ref, sock: Spec.Sock)
    requires Valid(g) && Valid(h) && OnOne(g, t) && Shows(g, names, e)
    requires s in g.locals && s in names && Only(g, h, s) && Books(g, h, s) && View(h, s) == sock
    ensures Shows(h, names, e.(socks := e.socks[names[s] := e.socks[names[s]].(sock := sock)])) && OnOne(h, t)
  {
    hide Core, Only, View, Online, Shows;
    EntryShows(g, h, names, e, s, sock);
    OnOneKept(g, h, t, s);
  }

  lemma GoneView(h: Graph, s: Ref)
    ensures s !in h.locals && s in h.past ==> View(h, s) == h.past[s]
  {
  }

  /** The state after a step, and its packets, as `Link` has them. */
  ghost predicate Refines(g: Graph, h: Graph, t: Ref, names: map<Ref, nat>, s: Link.System, s': Link.System) {
    Shows(h, names, s'.a) && OnOne(h, t) && s'.b == s.b && exists ps :: Speaks(g, h, t, ps) && s'.ab == s.ab + ps
  }

  lemma AnswersRefines(g: Graph, h: Graph, t: Ref, names: map<Ref, nat>, sys: Link.System, s: Ref, r: Spec.Reply,
                       take: bool)
    requires Valid(g) && Valid(h) && OnOne(g, t) && Shows(g, names, sys.a) && (take ==> sys.ba != [])
    requires s in g.active && s in names && names[s] in sys.a.socks && Answers(g, h, s, r) && Books(g, h, s)
    requires Sayable(r.msgs)
    ensures Refines(g, h, t, names, sys, Link.Touch(sys, names[s], sys.a.socks[names[s]].peer, r, take))
  {
    hide Core, Only, View, Online, Sends, SaidAll, Books;
    NameIsId(g, t, names, sys.a, s);
    ReplyShows(g, h, t, names, sys.a, s, r.sock);
    assert Shown(g, names, sys.a, s);
    SaidShows(g, s, r.msgs);
    SendsSpeaks(g, h, t, SaidAll(g, s, r.msgs));
  }

  /** A step of a socket that says nothing. */
  lemma QuietRefines(g: Graph, h: Graph, t: Ref, names: map<Ref, nat>, sys: Link.System, s: Ref, r: Spec.Reply,
                     take: bool)
    requires Valid(g) && Valid(h) && OnOne(g, t) && Shows(g, names, sys.a) && (take ==> sys.ba != [])
    requires s in g.locals && s in names && names[s] in sys.a.socks && Only(g, h, s) && Books(g, h, s)
    requires View(h, s) == r.sock
    requires SendsNothing(g, h) && r.msgs == []
    ensures Refines(g, h, t, names, sys, Link.Touch(sys, names[s], sys.a.socks[names[s]].peer, r, take))
  {
    hide Core, Only, View, Online, Books;
    ReplyShows(g, h, t, names, sys.a, s, r.sock);
    NothingSpeaks(g, h, t);
    assert sys.ab + Link.Address(names[s], sys.a.socks[names[s]].peer, []) == sys.ab + [];
  }

  lemma StillRefines(g: Graph, t: Ref, names: map<Ref, nat>, sys: Link.System, sys': Link.System)
    requires OnOne(g, t) && Shows(g, names, sys.a) && sys' == sys.(ba := sys'.ba)
    ensures Refines(g, g, t, names, sys, sys')
  {
    hide Shows;
    NothingSpeaks(g, g, t);
    assert sys.ab + [] == sys.ab;
  }

  // ---- books of the handlers ----

  lemma EditCloseBooks(g: Graph, s: Ref, l: Local, fault: bool)
    requires s in g.locals && l.ticket == g.locals[s].ticket && l.peer == g.locals[s].peer
    requires l.peer.Some? ==> HasLink(g, s)
    ensures Books(g, Edit(g, s, l), s) && Books(g, Close(Edit(g, s, l), s, fault), s)
  {
    hide Books, Close;
    EditBooks(g, s, l);
    CloseBooks(Edit(g, s, l), s, fault);
    BooksTrans(g, Edit(g, s, l), Close(Edit(g, s, l), s, fault), s);
  }

  lemma EditSendBooks(g: Graph, s: Ref, l: Local, t: Ref, w: Wire)
    requires s in g.locals && l.ticket == g.locals[s].ticket && l.peer == g.locals[s].peer && t in g.transports
    ensures Books(g, SendOn(Edit(g, s, l), t, w), s)
  {
  }

  /** The ways an enqueue can go: the socket is edited, and closed if its descriptor breaks. */
  lemma EnqueueIs(g: Graph, s: Ref, data: bytes, env: seq<Spec.WriteResult>) returns (l: Local)
    requires s in g.locals
    ensures l.ticket == g.locals[s].ticket && l.peer == g.locals[s].peer
    ensures var r := Enqueue(g, s, data, env);
            r.0 == Edit(g, s, l) || (r.0 == Close(Edit(g, s, l), s, true) && !r.1)
  {
    hide Close, Spec.FirstWrite;
    var w := Spec.FirstWrite(data, env);
    var m := g.locals[s].(out := g.locals[s].out + [Spec.Chunk(data[..w.0])]);
    if g.locals[s].queue != [] {
      l := g.locals[s].(queue := g.locals[s].queue + [data], wantWrite := true);
    } else {
      l := if w.1.Blocked? then m.(queue := [data[w.0..]], wantWrite := true) else m;
    }
  }

  lemma EnqueueBooks(g: Graph, s: Ref, data: bytes, env: seq<Spec.WriteResult>)
    requires s in g.locals && (g.locals[s].peer.Some? ==> HasLink(g, s))
    ensures Books(g, Enqueue(g, s, data, env).0, s)
    ensures (Enqueue(g, s, data, env).1 ==> s in Enqueue(g, s, data, env).0.locals)
  {
    hide Books, Close, Enqueue, HasLink;
    var l := EnqueueIs(g, s, data, env);
    EditCloseBooks(g, s, l, true);
  }

  lemma WriteBooks(g: Graph, t: Ref, from: nat, to: nat, data: bytes, env: seq<Spec.WriteResult>)
    requires t in g.transports && g.transports[t].online && from != 0 && to != 0 && Find(g, to, from).Some?
    requires HasLink(g, Find(g, to, from).value)
    ensures Books(g, OnWrite(g, t, from, to, data, env), Find(g, to, from).value)
  {
    hide Books, Enqueue, FindIn;
    var s := Find(g, to, from).value;
    EnqueueBooks(g, s, data, env);
    var r := Enqueue(g, s, data, env);
    if r.1 && t in r.0.transports {
      SendBooks(r.0, s, t, Okay(g.locals[s].id, from));
      BooksTrans(g, r.0, SendOn(r.0, t, Okay(g.locals[s].id, from)), s);
    }
  }

  lemma WritableBooks(g: Graph, s: Ref, env: seq<Spec.WriteResult>)
    requires s in g.locals && (g.locals[s].peer.Some? ==> HasLink(g, s))
    ensures Books(g, Writable(g, s, env), s)
  {
    hide Books, Close, Spec.DrainQueue;
    var l := g.locals[s];
    var d := Spec.DrainQueue(l.queue, env);
    var m := l.(out := l.out + [Spec.Chunk(d.sent)], queue := d.rest);
    EditCloseBooks(g, s, m, true);
    EditCloseBooks(g, s, m, false);
    var n := m.(wantWrite := false);
    EditBooks(g, s, n);
    if HasLink(Edit(g, s, n), s) {
      EditSendBooks(g, s, n, LinkOf(g, s), Said(Edit(g, s, n), s, Spec.MOkay));
    }
  }

  lemma ReadableBooks(g: Graph, s: Ref, env: seq<Spec.ReadResult>)
    requires HasLink(g, s)
    ensures Books(g, Readable(g, s, env), s)
  {
    hide Books, Close, Spec.ReadUp;
    var l := g.locals[s];
    var r := Spec.ReadUp(MAX_PAYLOAD, env);
    var m := l.(got := l.got + r.0, wantRead := false);
    var w := Said(g, s, Spec.MWrite(r.0));
    var k := if r.0 == [] then g else SendOn(Edit(g, s, m), LinkOf(g, s), w);
    SelfBooks(g, s);
    EditSendBooks(g, s, m, LinkOf(g, s), w);
    CloseBooks(k, s, true);
    BooksTrans(g, k, Close(k, s, true), s);
  }

  // ---- the steps ----

  lemma ShownActive(g: Graph, names: map<Ref, nat>, e: Link.Endpoint, s: Ref)
    requires Shows(g, names, e) && s in g.locals
    ensures s in names && names[s] in e.socks && e.socks[names[s]].sock == View(g, s)
    ensures HasLink(g, s) ==> e.socks[names[s]].peer == g.remotes[g.locals[s].peer.value].id
  {
    assert Runs.Known(g, s) && Shown(g, names, e, s);
  }

  lemma WriteValid(g: Graph, t: Ref, from: nat, to: nat, data: bytes, env: seq<Spec.WriteResult>)
    requires Valid(g) && t in g.transports
    ensures Valid(OnWrite(g, t, from, to, data, env))
  {
    hide Valid, OnWrite, FindIn, Only, Spec.OnWrite, Sends, SaidAll, View;
    WriteDoes(g, t, from, to, data, env);
  }

  lemma OnlyLink(g: Graph, t: Ref, s: Ref)
    requires OnOne(g, t) && HasLink(g, s)
    ensures LinkOf(g, s) == t
  {
  }

  lemma WriteRefines(g: Graph, t: Ref, names: map<Ref, nat>, sys: Link.System,
                     from: nat, to: nat, data: bytes, accept: bool, env: seq<Spec.WriteResult>)
    requires Valid(g) && OnOne(g, t) && Shows(g, names, sys.a)
    requires sys.ba != [] && sys.ba[0] == Link.Packet(from, to, Spec.MWrite(data))
    ensures Refines(g, OnWrite(g, t, from, to, data, env), t, names, sys, Link.Handle(sys, accept, env))
  {
    hide Valid, Shows, FindIn, Answers, Books, Spec.OnWrite, View, Refines;
    FindShows(g, t, names, sys.a, to, from);
    StillRefines(g, t, names, sys, sys.(ba := sys.ba[1..]));
    if from != 0 && to != 0 && Find(g, to, from).Some? {
      var s := Find(g, to, from).value;
      FoundIsLinked(g, to, from);
      ShownActive(g, names, sys.a, s);
      var h := OnWrite(g, t, from, to, data, env);
      WriteValid(g, t, from, to, data, env);
      OnlyLink(g, t, s);
      WriteAnswers(g, t, from, to, data, env);
      WriteBooks(g, t, from, to, data, env);
      WriteSayable(View(g, s), data, env);
      AnswersRefines(g, h, t, names, sys, s, Spec.OnWrite(View(g, s), data, env), true);
    }
  }

  lemma WritableRefines(g: Graph, t: Ref, names: map<Ref, nat>, sys: Link.System, s: Ref, env: seq<Spec.WriteResult>)
    requires Valid(g) && OnOne(g, t) && Shows(g, names, sys.a) && s in g.locals && g.locals[s].wantWrite
    ensures s in names && Link.EnabledA(sys, Link.Writable(names[s], env))
    ensures Refines(g, Writable(g, s, env), t, names, sys, Link.ApplyA(sys, Link.Writable(names[s], env)))
  {
    hide Valid, Shows, Answers, Books, Spec.OnWritable, Refines, Writable, Only, SendsNothing;
    Runs.WantsWrite(g, s);
    ShownActive(g, names, sys.a, s);
    if s in g.closing {
      ClosingFields(g, s);
      WritableBooks(g, s, env);
      WritableClosing(g, s, env);
      DrainingSilent(View(g, s), env);
      Runs.WritableMoves(g, s, env);
      QuietRefines(g, Writable(g, s, env), t, names, sys, s, Spec.OnWritable(View(g, s), env), false);
    } else {
      LinkedFields(g, s);
      WritableBooks(g, s, env);
      WritableLinked(g, s, env);
      WritableSayable(View(g, s), env);
      AnswersRefines(g, Writable(g, s, env), t, names, sys, s, Spec.OnWritable(View(g, s), env), false);
    }
  }

  lemma DrainingSilent(a: Spec.Sock, env: seq<Spec.WriteResult>)
    requires a.phase.Draining?
    ensures Spec.OnWritable(a, env).msgs == []
  {
    hide Spec.DrainQueue;
  }

  lemma ReadableRefines(g: Graph, t: Ref, names: map<Ref, nat>, sys: Link.System, s: Ref, env: seq<Spec.ReadResult>)
    requires Valid(g) && OnOne(g, t) && Shows(g, names, sys.a) && HasLink(g, s) && g.locals[s].wantRead
    ensures s in names && Link.EnabledA(sys, Link.Readable(names[s], env))
    ensures Refines(g, Readable(g, s, env), t, names, sys, Link.ApplyA(sys, Link.Readable(names[s], env)))
  {
    hide Valid, Shows, Answers, Books, Spec.OnReadable, Refines, Readable;
    ShownActive(g, names, sys.a, s);
    LinkedFields(g, s);
    ReadableBooks(g, s, env);
    ReadableLinked(g, s, env);
    ReadableSayable(View(g, s), env);
    AnswersRefines(g, Readable(g, s, env), t, names, sys, s, Spec.OnReadable(View(g, s), env), false);
  }

  lemma CloseRefines(g: Graph, t: Ref, names: map<Ref, nat>, sys: Link.System,
                     from: nat, to: nat, accept: bool, env: seq<Spec.WriteResult>)
    requires Valid(g) && OnOne(g, t) && Shows(g, names, sys.a) && sys.ba != []
    requires sys.ba[0] == AsPacket(Clse(from, to))
    ensures Refines(g, OnClse(g, t, from, to), t, names, sys, Link.Handle(sys, accept, env))
  {
    hide Valid, Shows, FindIn, Answers, Books, Spec.Close, Refines, Close;
    FindShows(g, t, names, sys.a, to, from);
    StillRefines(g, t, names, sys, sys.(ba := sys.ba[1..]));
    if to != 0 && Find(g, to, from).Some? {
      var s := Find(g, to, from).value;
      ShownActive(g, names, sys.a, s);
      Closing(g, t, names, sys, s, true, false, true);
    }
  }

  /** s->close(s), or local_socket_close_locked when the client is not to be told. */
  function Shut(g: Graph, s: Ref, notify: bool, fault: bool): Graph
    requires s in g.locals
  {
    if notify then Close(g, s, fault) else CloseLocked(g, s, fault)
  }

  function ShutReply(a: Spec.Sock, notify: bool, fault: bool): Spec.Reply {
    if notify then Spec.Close(a, fault) else Spec.CloseLocked(a, fault)
  }

  lemma ShutDoes(g: Graph, s: Ref, notify: bool, fault: bool)
    requires Valid(g) && s in g.locals
    ensures var h := Shut(g, s, notify, fault);
            && Valid(h) && Only(g, h, s) && Books(g, h, s) && View(h, s) == ShutReply(View(g, s), notify, fault).sock
            && (!HasLink(g, s) ==> SendsNothing(g, h) && ShutReply(View(g, s), notify, fault).msgs == [])
            && (HasLink(g, s) ==> Answers(g, h, s, ShutReply(View(g, s), notify, fault)))
  {
    hide Valid, Core, Only, Books, Close, CloseLocked;
    CoreOf(g);
    PeerIsLink(g, s);
    CloseBooks(g, s, fault);
    CloseLockedBooks(g, s, fault);
    CloseDoes(g, s, fault);
    CloseLockedDoes(g, s, fault);
    CloseLockedOnline(g, s, fault);
    if HasLink(g, s) {
      ShutLinked(g, s, notify, fault);
    }
  }

  lemma PeerIsLink(g: Graph, s: Ref)
    requires Valid(g) && s in g.locals
    ensures g.locals[s].peer.Some? <==> HasLink(g, s)
  {
    if g.locals[s].peer.Some? {
      LinkExists(g, s);
    }
    hide Valid;
  }

  /** A linked socket has its status already: both ways of closing are one. */
  lemma ShutLinked(g: Graph, s: Ref, notify: bool, fault: bool)
    requires Valid(g) && HasLink(g, s)
    ensures Answers(g, Shut(g, s, notify, fault), s, ShutReply(View(g, s), notify, fault))
  {
    hide Valid, Core, Answers, CloseLocked, Spec.CloseLocked;
    CoreOf(g);
    LinkIsActive(g, s);
    CloseAnswers(g, s, fault);
  }

  /** Closing a socket, linked or not. */
  lemma Closing(g: Graph, t: Ref, names: map<Ref, nat>, sys: Link.System, s: Ref, notify: bool, fault: bool,
                take: bool)
    requires Valid(g) && OnOne(g, t) && Shows(g, names, sys.a) && (take ==> sys.ba != []) && s in g.locals
    requires s in names && names[s] in sys.a.socks && sys.a.socks[names[s]].sock == View(g, s)
    ensures Valid(Shut(g, s, notify, fault))
    ensures Refines(g, Shut(g, s, notify, fault), t, names, sys,
                    Link.Touch(sys, names[s], sys.a.socks[names[s]].peer, ShutReply(View(g, s), notify, fault), take))
  {
    hide Valid, Shows, Answers, Books, Refines, Shut, Only, SendsNothing, ShutReply;
    ShutDoes(g, s, notify, fault);
    var r := ShutReply(View(g, s), notify, fault);
    if HasLink(g, s) {
      LinkedFields(g, s);
      ShutSayable(View(g, s), notify, fault);
      AnswersRefines(g, Shut(g, s, notify, fault), t, names, sys, s, r, take);
    } else {
      QuietRefines(g, Shut(g, s, notify, fault), t, names, sys, s, r, take);
    }
  }

  lemma ShutSayable(a: Spec.Sock, notify: bool, fault: bool)
    ensures Sayable(ShutReply(a, notify, fault).msgs)
  {
  }

  /** A socket that goes of its own accord, or with the input thread. */
  lemma AbortRefines(g: Graph, t: Ref, names: map<Ref, nat>, sys: Link.System, s: Ref, notify: bool)
    requires Valid(g) && OnOne(g, t) && Shows(g, names, sys.a) && s in g.locals
    ensures s in names && Link.EnabledA(sys, Link.Abort(names[s], notify)) && Valid(Shut(g, s, notify, true))
    ensures Refines(g, Shut(g, s, notify, true), t, names, sys, Link.ApplyA(sys, Link.Abort(names[s], notify)))
  {
    hide Valid, Shows, Refines, Shut, View, Spec.Close, Spec.CloseLocked;
    ShownActive(g, names, sys.a, s);
    Runs.AliveOpen(g, s);
    Closing(g, t, names, sys, s, notify, true, false);
  }

  lemma ActiveLinked(g: Graph, s: Ref)
    requires Valid(g) && s in g.active
    ensures s in g.locals && (g.locals[s].peer.Some? <==> HasLink(g, s)) && !g.locals[s].closing
  {
    ActiveHere(g, s);
  }

  /** READY on an unlinked socket makes its link; on a linked one it changes nothing but the socket. */
  lemma OkayFacts(g: Graph, t: Ref, from: nat, to: nat)
    requires Valid(g) && t in g.transports && g.transports[t].online && from != 0 && to != 0 && Find(g, to, 0).Some?
    ensures var s := Find(g, to, 0).value;
            var h := OnOkay(g, t, from, to);
            && s in g.active && s in g.locals && s in h.locals && h.locals[s].ticket == g.locals[s].ticket
                  && h.issued == g.issued
            && (g.locals[s].peer.None? ==>
                  HasLink(h, s) && LinkOf(h, s) == t && h.remotes[h.locals[s].peer.value].id == from)
            && (g.locals[s].peer.Some? ==> Books(g, h, s))
  {
    hide Valid, FindIn;
    var s := Find(g, to, 0).value;
    ActiveLinked(g, s);
    SelfBooks(g, s);
    var l := MakeReady(g, s).locals[s];
    EditBooks(g, s, l);
  }

  lemma OkayRefines(g: Graph, t: Ref, names: map<Ref, nat>, sys: Link.System,
                    from: nat, to: nat, accept: bool, env: seq<Spec.WriteResult>)
    requires Valid(g) && OnOne(g, t) && Shows(g, names, sys.a)
    requires sys.ba != [] && sys.ba[0] == Link.Packet(from, to, Spec.MOkay)
    ensures Refines(g, OnOkay(g, t, from, to), t, names, sys, Link.Handle(sys, accept, env))
  {
    hide Valid, Shows, FindIn, Books, Spec.OnOkay, Refines, OnOkay, Only, View;
    FindShows(g, t, names, sys.a, to, 0);
    StillRefines(g, t, names, sys, sys.(ba := sys.ba[1..]));
    OkayDoes(g, t, from, to);
    if from != 0 && to != 0 && Find(g, to, 0).Some? {
      var s := Find(g, to, 0).value;
      OkayFacts(g, t, from, to);
      ShownActive(g, names, sys.a, s);
      PhaseOf(g, s);
      ActiveLinked(g, s);
      if g.locals[s].peer.None? {
        FirstOkay(g, OnOkay(g, t, from, to), t, names, sys, s, from);
      } else if PeerIs(g, s, from) {
        QuietRefines(g, OnOkay(g, t, from, to), t, names, sys, s, Spec.Reply(Spec.OnOkay(View(g, s)), []), true);
      }
    }
  }

  lemma PhaseOf(g: Graph, s: Ref)
    requires Valid(g) && s in g.active
    ensures s in g.locals && (View(g, s).phase.Connecting? <==> g.locals[s].peer.None?)
  {
    ActiveHere(g, s);
  }

  lemma FirstOkay(g: Graph, h: Graph, t: Ref, names: map<Ref, nat>, sys: Link.System, s: Ref, from: nat)
    requires Valid(g) && Valid(h) && OnOne(g, t) && Shows(g, names, sys.a) && sys.ba != []
    requires s in g.locals && s in names && names[s] in sys.a.socks && sys.a.socks[names[s]].sock == View(g, s)
    requires Only(g, h, s) && SendsNothing(g, h) && View(h, s) == Spec.OnOkay(View(g, s))
    requires s in h.locals && h.locals[s].ticket == g.locals[s].ticket && h.issued == g.issued
    requires HasLink(h, s) && LinkOf(h, s) == t && h.remotes[h.locals[s].peer.value].id == from
    ensures Refines(g, h, t, names, sys, Link.Touch(sys, names[s], from, Spec.Reply(Spec.OnOkay(View(g, s)), []), true))
  {
    hide Core, Only, View, Online, Spec.OnOkay, SendsNothing;
    assert Shown(g, names, sys.a, s);
    var entry := sys.a.socks[names[s]].(sock := Spec.OnOkay(View(g, s)), peer := from);
    TouchShows(g, h, names, sys.a, s, entry);
    OnOneKept(g, h, t, s);
    NothingSpeaks(g, h, t);
    assert sys.ab + Link.Address(names[s], sys.a.socks[names[s]].peer, []) == sys.ab + [];
  }

  /** The names after a step that makes a socket. */
  function Named(g: Graph, names: map<Ref, nat>, e: Link.Endpoint): map<Ref, nat> {
    names[g.nextRef := e.next]
  }

  lemma NewRefines(g: Graph, h: Graph, t: Ref, names: map<Ref, nat>, sys: Link.System, entry: Link.Entry,
                   w: Wire, answers: bool)
    requires Valid(g) && Valid(h) && OnOne(g, t) && Shows(g, names, sys.a) && OfStream(w)
    requires !Runs.Known(g, g.nextRef) && Only(g, h, g.nextRef) && Sends(g, h, t, [w])
    requires h.issued == g.issued + 1 && h.issued < ID_CYCLE && g.nextRef in h.locals
    requires h.locals[g.nextRef].ticket == g.issued
    requires View(h, g.nextRef) == entry.sock
    requires HasLink(h, g.nextRef) ==>
               LinkOf(h, g.nextRef) == t && h.remotes[h.locals[g.nextRef].peer.value].id == entry.peer
    ensures Refines(g, h, t, Named(g, names, sys.a), sys, Link.Install(sys, entry, AsPacket(w), answers))
  {
    hide Core, Only, View, Online;
    var s := g.nextRef;
    var e := sys.a;
    var served := if answers then e.served[entry.peer := e.next] else e.served;
    InstallShows(g, h, names, e, entry, served);
    OnOneKept(g, h, t, s);
    SendsSpeaks(g, h, t, [w]);
    assert AsPackets([w]) == [AsPacket(w)];
  }

  lemma OpenFacts(g: Graph, t: Ref, from: nat, to: nat, accept: bool)
    requires Valid(g) && t in g.transports && g.transports[t].online && from != 0 && to == 0 && accept
    ensures var s := g.nextRef;
            var h := OnOpen(g, t, from, to, accept);
            && h.issued == g.issued + 1 && s in h.locals && h.locals[s].ticket == g.issued
            && HasLink(h, s) && LinkOf(h, s) == t && h.remotes[h.locals[s].peer.value].id == from
  {
    hide Valid;
  }

  lemma OpenRefines(g: Graph, t: Ref, names: map<Ref, nat>, sys: Link.System,
                    from: nat, to: nat, accept: bool, env: seq<Spec.WriteResult>)
    requires Valid(g) && OnOne(g, t) && Shows(g, names, sys.a) && g.issued + 1 < ID_CYCLE
    requires sys.ba != [] && sys.ba[0] == Link.Packet(from, to, Spec.MOpen)
    ensures var made := from != 0 && to == 0 && accept;
            Refines(g, OnOpen(g, t, from, to, accept), t, if made then Named(g, names, sys.a) else names,
                    sys, Link.Handle(sys, accept, env))
  {
    hide Valid, Shows, Refines, OnOpen, Only, View, Sends;
    var rest := sys.(ba := sys.ba[1..]);
    StillRefines(g, t, names, sys, rest);
    OpenDoes(g, t, from, to, accept);
    var h := OnOpen(g, t, from, to, accept);
    if from != 0 && to == 0 {
      if accept {
        FreshKnown(g);
        OpenFacts(g, t, from, to, accept);
        NextName(g, t, names, sys.a);
        NewRefines(g, h, t, names, sys, Link.Entry(Spec.ServiceSock, from, true), Okay(g.nextId, from), true);
        var entry := Link.Entry(Spec.ServiceSock, from, true);
        var answer := Link.Packet(sys.a.next, from, Spec.MOkay);
        TakeFirst(g, h, t, Named(g, names, sys.a), sys, Link.Install(sys, entry, answer, true));
      } else {
        RejectIs(g, t, from);
        RejectRefines(g, h, t, names, sys, from);
      }
    }
  }

  lemma FreshKnown(g: Graph)
    requires Valid(g)
    ensures !Runs.Known(g, g.nextRef)
  {
    FreshRef(g);
  }

  /** Taking the packet off its channel is no matter for the rest. */
  lemma TakeFirst(g: Graph, h: Graph, t: Ref, names: map<Ref, nat>, sys: Link.System, sys': Link.System)
    requires Refines(g, h, t, names, sys, sys') && sys.ba != []
    ensures Refines(g, h, t, names, sys, sys'.(ba := sys.ba[1..]))
  {
  }

  lemma RejectIs(g: Graph, t: Ref, from: nat)
    requires t in g.transports && g.transports[t].online && from != 0
    ensures OnOpen(g, t, from, 0, false) == SendOn(g, t, Clse(0, from))
  {
  }

  lemma RejectRefines(g: Graph, h: Graph, t: Ref, names: map<Ref, nat>, sys: Link.System, from: nat)
    requires Valid(g) && Valid(h) && OnOne(g, t) && Shows(g, names, sys.a) && sys.ba != []
    requires h == SendOn(g, t, Clse(0, from))
    ensures Refines(g, h, t, names, sys, sys.(ba := sys.ba[1..], ab := sys.ab + [Link.Packet(0, from, Spec.MReject)]))
  {
    hide Core, Online;
    assert Shows(h, names, sys.a) by {
      assert forall s :: View(h, s) == View(g, s) && HasLink(h, s) == HasLink(g, s);
      assert forall s :: s in names ==> Shown(g, names, sys.a, s) && Shown(h, names, sys.a, s);
    }
    SendsSpeaks(g, h, t, [Clse(0, from)]);
    assert AsPackets([Clse(0, from)]) == [Link.Packet(0, from, Spec.MReject)];
  }

  lemma DialFacts(g: Graph, t: Ref, awaiting: bool, dest: string)
    requires t in g.transports
    ensures var h := Runs.Dialled(g, t, awaiting, dest);
            && h.issued == g.issued + 1 && g.nextRef in h.locals && h.locals[g.nextRef].ticket == g.issued
            && !HasLink(h, g.nextRef) && Sends(g, h, t, [Open(g.nextId, 0, dest)])
  {
  }

  lemma DialRefines(g: Graph, t: Ref, names: map<Ref, nat>, sys: Link.System, awaiting: bool, dest: string)
    requires Valid(g) && OnOne(g, t) && Shows(g, names, sys.a) && g.issued + 1 < ID_CYCLE
    ensures Refines(g, Runs.Dialled(g, t, awaiting, dest), t, Named(g, names, sys.a), sys,
                    Link.ApplyA(sys, Link.Dial(awaiting)))
  {
    hide Valid, Shows, Refines, Runs.Dialled, Only, View, Sends;
    Runs.DialledValid(g, t, awaiting, dest);
    FreshKnown(g);
    DialFacts(g, t, awaiting, dest);
    NextName(g, t, names, sys.a);
    NewRefines(g, Runs.Dialled(g, t, awaiting, dest), t, names, sys, Link.Entry(Spec.DialSock(awaiting), 0, false),
               Open(g.nextId, 0, dest), false);
  }

  // ---- two engines ----

  /** One engine with its transport to the other, and the names its sockets have had. */
  datatype Side = Side(g: Graph, t: Ref, names: map<Ref, nat>)

  datatype Pair = Pair(a: Side, b: Side, ab: seq<Wire>, ba: seq<Wire>)

  function Flip(p: Pair): Pair {
    Pair(p.b, p.a, p.ba, p.ab)
  }

  datatype Event =
    | Accept(name: string, c: Ref)
    | Choose(c: Ref)
    | Ask(c: Ref, dest: string)
    | Quit(c: Ref)
    | Arrive(accept: bool, env: seq<Spec.WriteResult>)
    | CanRead(s: Ref, incoming: seq<Spec.ReadResult>)
    | CanWrite(s: Ref, outgoing: seq<Spec.WriteResult>)
    | HangUp(s: Ref)
    | InputExits
    | Connect(banner: string)

  /** What an event at end a is to its engine. */
  function EngineEvent(p: Pair, e: Event): Runs.Event
    requires e.Arrive? ==> p.ba != [] && OfStream(p.ba[0])
  {
    match e
    case Accept(name, c) => Runs.Accept(name, c)
    case Choose(c) => Runs.Choose(c, p.a.t)
    case Ask(c, dest) => Runs.Ask(c, dest)
    case Quit(c) => Runs.Quit(c)
    case CanRead(s, incoming) => Runs.CanRead(s, incoming)
    case CanWrite(s, outgoing) => Runs.CanWrite(s, outgoing)
    case HangUp(s) => Runs.HangUp(s)
    case InputExits => Runs.InputExits(p.a.t)
    case Connect(banner) => Runs.GetConnect(p.a.t, banner)
    case Arrive(accept, env) => Runs.PacketEvent(p.a.t, p.ba[0], accept, env, None)
  }

  /** The forward behind a name, if it is one to transport t. */
  predicate ForwardsTo(g: Graph, name: string, t: Ref) {
    var l := Isolation.Lookup(g.listeners, name);
    l.Some? && !Forwards.Smart(l.value) && l.value.transport == Some(t)
  }

  /** Clients and forwards of another transport are not part of the run. */
  ghost predicate Here(p: Pair, e: Event) {
    match e
    case Accept(name, _) =>
      var l := Isolation.Lookup(p.a.g.listeners, name);
      l.Some? ==> Forwards.Smart(l.value) || l.value.transport == Some(p.a.t)
    case Ask(c, _) =>
      c in p.a.g.front.clients && p.a.g.front.clients[c].Some? ==> p.a.g.front.clients[c].value.transport == p.a.t
    case _ => true
  }

  ghost predicate EnabledA(p: Pair, e: Event) {
    && (e.Arrive? ==> p.ba != [] && OfStream(p.ba[0]))
    && Here(p, e) && Runs.Can(p.a.g, EngineEvent(p, e)) && p.a.g.issued + 1 < ID_CYCLE
  }

  /** The event hands a client to the device. */
  predicate Rings(p: Pair, e: Event) {
    (e.Accept? && ForwardsTo(p.a.g, e.name, p.a.t)) || (e.Ask? && Runs.Dials(p.a.g, e.c))
  }

  /** The event makes a socket. */
  predicate Makes(p: Pair, e: Event) {
    || Rings(p, e)
    || (e.Arrive? && e.accept && p.ba != [] && p.ba[0].Open? && p.ba[0].from != 0 && p.ba[0].to == 0)
  }

  /** What was sent on t between g and h. */
  function SentSince(g: Graph, h: Graph, t: Ref): seq<Wire> {
    if t in g.transports && t in h.transports && |g.transports[t].sent| <= |h.transports[t].sent|
    then h.transports[t].sent[|g.transports[t].sent|..] else []
  }

  /** Engine a is in state h now, and the far end will hear of it. */
  function MoveA(p: Pair, h: Graph): Pair {
    p.(a := p.a.(g := h), ab := p.ab + SentSince(p.a.g, h, p.a.t))
  }

  function ApplyA(p: Pair, e: Event): Pair
    requires EnabledA(p, e)
  {
    var q := MoveA(p, Runs.After(p.a.g, EngineEvent(p, e)));
    q.(a := q.a.(names := if Makes(p, e) then p.a.names[p.a.g.nextRef := p.a.g.issued + 1] else p.a.names),
       ba := if e.Arrive? then p.ba[1..] else p.ba)
  }

  datatype Step = Step(atA: bool, event: Event)

  ghost predicate Enabled(p: Pair, st: Step) {
    if st.atA then EnabledA(p, st.event) else EnabledA(Flip(p), st.event)
  }

  function Apply(p: Pair, st: Step): Pair
    requires Enabled(p, st)
  {
    if st.atA then ApplyA(p, st.event) else Flip(ApplyA(Flip(p), st.event))
  }

  ghost predicate SideOk(x: Side, e: Link.Endpoint) {
    Valid(x.g) && OnOne(x.g, x.t) && Shows(x.g, x.names, e)
  }

  /** The pair of engines, as `Link` sees it. */
  ghost predicate Models(p: Pair, s: Link.System) {
    && SideOk(p.a, s.a) && SideOk(p.b, s.b)
    && AllOfStreams(p.ab) && AsPackets(p.ab) == s.ab && AllOfStreams(p.ba) && AsPackets(p.ba) == s.ba
  }

  lemma FlipModels(p: Pair, s: Link.System)
    requires Models(p, s)
    ensures Models(Flip(p), Link.Flip(s))
  {
    hide SideOk;
  }

  /** Only a linked socket is read. */
  lemma InterestLinked(s: Link.System, k: nat)
    requires Link.Inv(s) && k in s.a.socks && s.a.socks[k].sock.wantRead
    ensures s.a.socks[k].sock.phase.Linked?
  {
    if s.a.socks[k].server {
      var x := s.a.socks[k].peer;
      assert Link.Opener(s.b, x) && Link.Answer(s.a, x) == s.a.socks[k].sock;
      assert Stream.Sane(Link.View(Link.Flip(s), x).b) by {
        assert Stream.Inv(Link.View(Link.Flip(s), x));
        hide Stream.Datas, Stream.Credits, Stream.Shape, Stream.Sane;
      }
    } else {
      assert Stream.Sane(Link.View(s, k).a) by {
        assert Stream.Inv(Link.View(s, k));
        hide Stream.Datas, Stream.Credits, Stream.Shape, Stream.Sane;
      }
    }
    hide Stream.Inv, Link.Wired;
  }

  lemma FirstPacket(ws: seq<Wire>)
    requires AllOfStreams(ws) && ws != []
    ensures AsPackets(ws)[0] == AsPacket(ws[0]) && AllOfStreams(ws[1..]) && AsPackets(ws[1..]) == AsPackets(ws)[1..]
  {
  }

  /** The packets said become part of the channel. */
  lemma RefinesModels(p: Pair, s: Link.System, q: Pair, s': Link.System)
    requires Models(p, s) && q.b == p.b && q.a.t == p.a.t && Valid(q.a.g) && s'.b == s.b
    requires Refines(p.a.g, q.a.g, p.a.t, q.a.names, s, s')
    requires q.ab == p.ab + SentSince(p.a.g, q.a.g, p.a.t)
    requires AllOfStreams(q.ba) && AsPackets(q.ba) == s'.ba
    ensures Models(q, s')
  {
    hide Valid, OnOne, Shows;
    var ps :| Speaks(p.a.g, q.a.g, p.a.t, ps) && s'.ab == s.ab + ps;
    PacketsAppend(p.ab, SentSince(p.a.g, q.a.g, p.a.t));
  }

  // ---- steps of `Link`, one after the other ----

  ghost predicate Path(s: Link.System, sts: seq<Link.Step>, s': Link.System)
    decreases |sts|
  {
    if sts == [] then s' == s
    else Link.Enabled(s, sts[0]) && Path(Link.Apply(s, sts[0]), sts[1..], s')
  }

  function Turned(sts: seq<Link.Step>): seq<Link.Step> {
    if sts == [] then [] else [sts[0].(atA := !sts[0].atA)] + Turned(sts[1..])
  }

  lemma {:induction false} FlipPath(s: Link.System, sts: seq<Link.Step>, s': Link.System)
    requires Path(s, sts, s')
    ensures Path(Link.Flip(s), Turned(sts), Link.Flip(s'))
    decreases |sts|
  {
    hide Link.EnabledA, Link.ApplyA;
    if sts != [] {
      FlipPath(Link.Apply(s, sts[0]), sts[1..], s');
      assert Turned(sts)[1..] == Turned(sts[1..]);
    }
  }

  lemma OnePath(s: Link.System, e: Link.Event)
    requires Link.EnabledA(s, e)
    ensures Path(s, [Link.Step(true, e)], Link.ApplyA(s, e))
  {
    hide Link.EnabledA, Link.ApplyA;
    assert Path(Link.ApplyA(s, e), [Link.Step(true, e)][1..], Link.ApplyA(s, e));
  }

  // ---- every step of the engines is a path of `Link` ----

  lemma ArriveRefines(p: Pair, s: Link.System, e: Event)
    requires Models(p, s) && EnabledA(p, e) && e.Arrive?
    ensures s.ba != []
    ensures var q := ApplyA(p, e);
            Refines(p.a.g, q.a.g, p.a.t, q.a.names, s, Link.Handle(s, e.accept, e.env))
  {
    hide Valid, OnOne, Shows, Refines, OnOpen, OnOkay, OnWrite, OnClse;
    FirstPacket(p.ba);
    var g, t, names := p.a.g, p.a.t, p.a.names;
    NextIs(p.a, s.a);
    match p.ba[0]
    case Open(from, to, _) =>
      OpenOnline(g, t);
      OpenRefines(g, t, names, s, from, to, e.accept, e.env);
    case Okay(from, to) => OkayRefines(g, t, names, s, from, to, e.accept, e.env);
    case Write(from, to, data) => WriteRefines(g, t, names, s, from, to, data, e.accept, e.env);
    case Clse(from, to) => CloseRefines(g, t, names, s, from, to, e.accept, e.env);
  }

  lemma NextIs(x: Side, e: Link.Endpoint)
    requires SideOk(x, e)
    ensures e.next == x.g.issued + 1 && Named(x.g, x.names, e) == x.names[x.g.nextRef := x.g.issued + 1]
  {
    hide Valid, OnOne;
  }

  lemma OpenOnline(g: Graph, t: Ref)
    requires OnOne(g, t)
    ensures t in g.transports && g.transports[t].online
  {
  }

  /** An event that is one step of `Link`. */
  predicate Single(p: Pair, e: Event) {
    e.CanWrite? || e.HangUp? || (e.CanRead? && e.s in p.a.g.locals && p.a.g.locals[e.s].wantRead)
  }

  function LinkEvent(p: Pair, e: Event): Link.Event
    requires Single(p, e)
  {
    match e
    case CanRead(s, incoming) => Link.Readable(if s in p.a.names then p.a.names[s] else 0, incoming)
    case CanWrite(s, outgoing) => Link.Writable(if s in p.a.names then p.a.names[s] else 0, outgoing)
    case HangUp(s) => Link.Abort(if s in p.a.names then p.a.names[s] else 0, true)
  }

  lemma OtherRefines(p: Pair, s: Link.System, e: Event)
    requires Link.Inv(s) && Models(p, s) && EnabledA(p, e) && Single(p, e)
    ensures Link.EnabledA(s, LinkEvent(p, e))
    ensures var q := ApplyA(p, e);
            Refines(p.a.g, q.a.g, p.a.t, q.a.names, s, Link.ApplyA(s, LinkEvent(p, e)))
  {
    hide Valid, OnOne, Shows, Refines, Writable, Readable, Close, Link.Inv;
    var g, t, names := p.a.g, p.a.t, p.a.names;
    NextIs(p.a, s.a);
    match e
    case CanWrite(r, outgoing) => WritableRefines(g, t, names, s, r, outgoing);
    case HangUp(r) => AbortRefines(g, t, names, s, r, true);
    case CanRead(r, incoming) =>
      ReadLinked(p, s, r);
      ReadableRefines(g, t, names, s, r, incoming);
  }

  lemma ReadLinked(p: Pair, s: Link.System, r: Ref)
    requires Link.Inv(s) && Models(p, s) && r in p.a.g.locals && p.a.g.locals[r].wantRead
    ensures HasLink(p.a.g, r)
  {
    hide Valid, OnOne, Shows, Link.Inv;
    ShownActive(p.a.g, p.a.names, s.a, r);
    InterestLinked(s, p.a.names[r]);
    PhaseLinked(p.a.g, r);
  }

  lemma PhaseLinked(g: Graph, r: Ref)
    requires Valid(g) && r in g.locals && View(g, r).phase.Linked?
    ensures HasLink(g, r)
  {
    LinkExists(g, r);
  }

  lemma ValidAfter(p: Pair, e: Event)
    requires Valid(p.a.g) && EnabledA(p, e)
    ensures Valid(ApplyA(p, e).a.g)
  {
    hide Valid, Runs.AllMove, Runs.After;
    if e.InputExits? || e.Connect? {
      Runs.SessionStep(p.a.g, EngineEvent(p, e));
    } else if Runs.OnFront(EngineEvent(p, e)) {
      Runs.ClientStep(p.a.g, EngineEvent(p, e));
    } else {
      Runs.StreamStep(p.a.g, EngineEvent(p, e));
    }
  }

  lemma ArriveModels(p: Pair, s: Link.System, e: Event)
    requires Models(p, s) && EnabledA(p, e) && e.Arrive?
    ensures Link.EnabledA(s, Link.Arrive(e.accept, e.env))
    ensures Models(ApplyA(p, e), Link.ApplyA(s, Link.Arrive(e.accept, e.env)))
  {
    hide Valid, OnOne, Shows, Runs.After, Link.Handle, Runs.Can, Refines;
    ValidAfter(p, e);
    FirstPacket(p.ba);
    ArriveRefines(p, s, e);
    HandleTakes(s, e.accept, e.env);
    RefinesModels(p, s, ApplyA(p, e), Link.Handle(s, e.accept, e.env));
  }

  lemma SingleModels(p: Pair, s: Link.System, e: Event)
    requires Link.Inv(s) && Models(p, s) && EnabledA(p, e) && Single(p, e)
    ensures Link.EnabledA(s, LinkEvent(p, e)) && Models(ApplyA(p, e), Link.ApplyA(s, LinkEvent(p, e)))
  {
    hide Valid, OnOne, Shows, Link.Inv, Runs.After, Link.EnabledA, Link.ApplyA, Runs.Can, Refines;
    ValidAfter(p, e);
    OtherRefines(p, s, e);
    OthersLeave(s, LinkEvent(p, e));
    RefinesModels(p, s, ApplyA(p, e), Link.ApplyA(s, LinkEvent(p, e)));
  }

  lemma HandleTakes(s: Link.System, accept: bool, env: seq<Spec.WriteResult>)
    requires s.ba != []
    ensures Link.Handle(s, accept, env).ba == s.ba[1..] && Link.Handle(s, accept, env).b == s.b
  {
    hide Spec.OnWrite, Spec.Close, Spec.OnOkay;
  }

  lemma OthersLeave(s: Link.System, e: Link.Event)
    requires Link.EnabledA(s, e) && !e.Arrive?
    ensures Link.ApplyA(s, e).ba == s.ba && Link.ApplyA(s, e).b == s.b
  {
    hide Spec.OnWritable, Spec.OnReadable, Spec.Close, Spec.CloseLocked;
  }

  /** One socket aborted. */
  lemma AbortModels(p: Pair, s: Link.System, r: Ref, notify: bool) returns (e: Link.Event)
    requires Models(p, s) && r in p.a.g.locals
    ensures Link.EnabledA(s, e) && Models(MoveA(p, Shut(p.a.g, r, notify, true)), Link.ApplyA(s, e))
    ensures SentKept(p.a.g, Shut(p.a.g, r, notify, true), p.a.t)
  {
    hide Valid, OnOne, Shows, Shut, Link.EnabledA, Link.ApplyA;
    AbortRefines(p.a.g, p.a.t, p.a.names, s, r, notify);
    e := Link.Abort(p.a.names[r], notify);
    OthersLeave(s, e);
    RefinesModels(p, s, MoveA(p, Shut(p.a.g, r, notify, true)), Link.ApplyA(s, e));
  }

  /** Nothing said on t is unsaid. */
  ghost predicate SentKept(g: Graph, h: Graph, t: Ref) {
    t in g.transports && t in h.transports && g.transports[t].sent <= h.transports[t].sent
  }

  lemma MoveTwice(p: Pair, h: Graph, k: Graph)
    requires SentKept(p.a.g, h, p.a.t) && SentKept(h, k, p.a.t)
    ensures MoveA(MoveA(p, h), k) == MoveA(p, k) && SentKept(p.a.g, k, p.a.t)
  {
  }

  /** The input thread's way out: `Link` loses the sockets one by one. */
  lemma {:induction false} ExitModels(p: Pair, s: Link.System) returns (sts: seq<Link.Step>, s': Link.System)
    requires Models(p, s)
    ensures var h := Isolation.CloseListed(p.a.g, p.a.t);
            Path(s, sts, s') && Models(MoveA(p, h), s') && SentKept(p.a.g, h, p.a.t)
    decreases |p.a.g.active|
  {
    hide Valid, OnOne, Shows, CloseLocked, Isolation.FirstOn, Isolation.CloseListed, Only, Without, View,
         Link.EnabledA, Link.ApplyA, Spec.CloseLocked;
    var g, t := p.a.g, p.a.t;
    Runs.CloseListedStep(g, t);
    match Isolation.FirstOn(g, g.active, t)
    case None =>
      OpenOnline(g, t);
      assert MoveA(p, g) == p;
      sts, s' := [], s;
    case Some(r) =>
      var k := CloseLocked(g, r, true);
      var e := AbortModels(p, s, r, false);
      sts, s' := ExitModels(MoveA(p, k), Link.ApplyA(s, e));
      MoveTwice(p, k, Isolation.CloseListed(k, t));
      assert ([Link.Step(true, e)] + sts)[1..] == sts;
      sts := [Link.Step(true, e)] + sts;
  }

  /** Reading without interest gives no data, or there is no far side: nothing happens, or the socket ends. */
  lemma ReadNothing(g: Graph, s: Ref, incoming: seq<Spec.ReadResult>)
    requires Valid(g) && s in g.locals && !g.locals[s].wantRead && Runs.MayRead(g.locals[s], incoming)
    ensures Readable(g, s, incoming) == if Spec.ReadUp(MAX_PAYLOAD, incoming).1 then Close(g, s, true) else g
  {
    hide Valid, Close, Spec.ReadUp;
    if g.locals[s].closing {
      ClosingUnlinked(g, s);
    }
  }

  /** A READ bit that is stale or was faked: nothing, or the socket's end. */
  lemma StaleModels(p: Pair, s: Link.System, e: Event) returns (sts: seq<Link.Step>, s': Link.System)
    requires Models(p, s) && EnabledA(p, e) && e.CanRead? && e.s in p.a.g.locals && !p.a.g.locals[e.s].wantRead
    ensures Path(s, sts, s') && Models(ApplyA(p, e), s')
  {
    hide Valid, OnOne, Shows, Close, Readable, Spec.ReadUp, Link.EnabledA, Link.ApplyA;
    var g := p.a.g;
    ReadNothing(g, e.s, e.incoming);
    if Readable(g, e.s, e.incoming) == g {
      OpenOnline(g, p.a.t);
      assert ApplyA(p, e) == p;
      sts, s' := [], s;
    } else {
      var x := AbortModels(p, s, e.s, true);
      OnePath(s, x);
      sts, s' := [Link.Step(true, x)], Link.ApplyA(s, x);
    }
  }

  lemma ClosingUnlinked(g: Graph, s: Ref)
    requires Valid(g) && s in g.locals && g.locals[s].closing
    ensures !HasLink(g, s)
  {
    if s in g.active {
      ActiveHere(g, s);
    }
    ClosingFields(g, s);
  }

  /** Only who is at the front, or the history of a transport, is different. */
  ghost predicate FrontOnly(g: Graph, h: Graph) {
    && h == g.(front := h.front, transports := h.transports) && h.transports.Keys == g.transports.Keys
    && forall t :: t in g.transports ==> h.transports[t] == g.transports[t].(tenure := h.transports[t].tenure)
  }

  lemma FrontOnlyOk(g: Graph, h: Graph, t: Ref, names: map<Ref, nat>, e: Link.Endpoint)
    requires FrontOnly(g, h) && Valid(g) && OnOne(g, t) && Shows(g, names, e)
    ensures Valid(h) && OnOne(h, t) && Shows(h, names, e)
    ensures t in g.transports && t in h.transports && h.transports[t].sent == g.transports[t].sent
  {
    hide Valid;
    Runs.LeftValid(g, h);
    forall s | s in names ensures Shown(h, names, e, s) {
      assert Shown(g, names, e, s);
    }
  }

  lemma FrontModels(p: Pair, h: Graph, s: Link.System)
    requires Models(p, s) && FrontOnly(p.a.g, h)
    ensures Models(MoveA(p, h), s) && SentKept(p.a.g, h, p.a.t)
  {
    hide Valid, OnOne, Shows, FrontOnly;
    FrontOnlyOk(p.a.g, h, p.a.t, p.a.names, s.a);
    assert p.ab + SentSince(p.a.g, h, p.a.t) == p.ab;
  }

  /** A client is handed to the device from state k, which is that of engine a but for the front. */
  lemma RingModels(p: Pair, s: Link.System, k: Graph, awaiting: bool, dest: string)
    requires Models(p, s) && FrontOnly(p.a.g, k) && p.a.t in k.transports && p.a.g.issued + 1 < ID_CYCLE
    ensures Link.EnabledA(s, Link.Dial(awaiting))
    ensures var q := MoveA(p, Runs.Dialled(k, p.a.t, awaiting, dest));
            Models(q.(a := q.a.(names := p.a.names[p.a.g.nextRef := p.a.g.issued + 1])),
                   Link.ApplyA(s, Link.Dial(awaiting)))
  {
    hide Valid, OnOne, Shows, Refines, Runs.Dialled, Only, View, SentSince, Link.ApplyA;
    var g, t, names := p.a.g, p.a.t, p.a.names;
    FrontModels(p, k, s);
    var m := MoveA(p, k);
    NextIs(m.a, s.a);
    DialRefines(k, t, names, s, awaiting, dest);
    Runs.DialledValid(k, t, awaiting, dest);
    OthersLeave(s, Link.Dial(awaiting));
    FrontSame(g, k, t);
    var h := Runs.Dialled(k, t, awaiting, dest);
    var q := MoveA(m, h);
    RefinesModels(m, s, q.(a := q.a.(names := names[k.nextRef := k.issued + 1])), Link.ApplyA(s, Link.Dial(awaiting)));
    SentSame(p, k, h);
  }

  lemma FrontSame(g: Graph, k: Graph, t: Ref)
    requires FrontOnly(g, k)
    ensures k.nextRef == g.nextRef && k.issued == g.issued
  {
  }

  lemma SentSame(p: Pair, k: Graph, h: Graph)
    requires FrontOnly(p.a.g, k) && p.a.t in p.a.g.transports
    ensures MoveA(MoveA(p, k), h) == MoveA(p, h)
  {
    assert SentSince(p.a.g, k, p.a.t) == [];
    assert p.ab + [] == p.ab;
  }

  /** A client is handed over. */
  lemma HandedModels(p: Pair, s: Link.System, e: Event)
    requires Models(p, s) && EnabledA(p, e) && Rings(p, e)
    ensures Link.EnabledA(s, Link.Dial(e.Ask?)) && Models(ApplyA(p, e), Link.ApplyA(s, Link.Dial(e.Ask?)))
  {
    hide Models, Runs.Dialled, SentSince, Link.EnabledA, Link.ApplyA, Isolation.Lookup, Forwards.Smart;
    var g, t := p.a.g, p.a.t;
    HereFacts(p, s);
    if e.Accept? {
      RingModels(p, s, g, false, Isolation.Lookup(g.listeners, e.name).value.connectTo);
    } else {
      RingModels(p, s, Runs.WithClients(g, g.front.clients - {e.c}), true, e.dest);
    }
  }

  /** A client comes, chooses, is refused or goes: nothing changes that `Link` knows of. */
  lemma WaitingModels(p: Pair, s: Link.System, e: Event)
    requires Models(p, s) && EnabledA(p, e) && Runs.OnFront(EngineEvent(p, e)) && !Rings(p, e)
    ensures Models(ApplyA(p, e), s)
  {
    hide Models, Runs.Dialled, SentSince, Isolation.Lookup, Forwards.Smart;
    HereFacts(p, s);
    FrontModels(p, Runs.After(p.a.g, EngineEvent(p, e)), s);
  }

  lemma ClientModels(p: Pair, s: Link.System, e: Event) returns (sts: seq<Link.Step>, s': Link.System)
    requires Models(p, s) && EnabledA(p, e) && Runs.OnFront(EngineEvent(p, e))
    ensures Path(s, sts, s') && Models(ApplyA(p, e), s')
  {
    hide Models, EnabledA, ApplyA, Link.EnabledA, Link.ApplyA;
    if Rings(p, e) {
      HandedModels(p, s, e);
      OnePath(s, Link.Dial(e.Ask?));
      sts, s' := [Link.Step(true, Link.Dial(e.Ask?))], Link.ApplyA(s, Link.Dial(e.Ask?));
    } else {
      WaitingModels(p, s, e);
      sts, s' := [], s;
    }
  }

  lemma HereFacts(p: Pair, s: Link.System)
    requires Models(p, s)
    ensures p.a.t in p.a.g.transports && FrontOnly(p.a.g, p.a.g)
  {
    hide Valid, Shows;
  }

  /** The input thread's way out, with its mark on the transport. */
  lemma LeaveModels(p: Pair, s: Link.System) returns (sts: seq<Link.Step>, s': Link.System)
    requires Models(p, s) && p.a.t in p.a.g.transports
    ensures Path(s, sts, s') && Models(MoveA(p, Runs.InputGone(p.a.g, p.a.t)), s')
  {
    hide Models, Isolation.CloseListed, SentSince, Path;
    sts, s' := ExitModels(p, s);
    var k := Isolation.CloseListed(p.a.g, p.a.t);
    var h := Runs.InputGone(p.a.g, p.a.t);
    FrontModels(MoveA(p, k), h, s');
    MoveTwice(p, k, h);
  }

  // ---- a new session ----

  /** What `Link` knows of the engine does not depend on sessions and listeners. */
  lemma SameShows(g: Graph, h: Graph, names: map<Ref, nat>, e: Link.Endpoint)
    requires Shows(g, names, e) && h.locals == g.locals && h.past == g.past && h.remotes == g.remotes
    requires h.issued == g.issued && h.transports.Keys == g.transports.Keys
    ensures Shows(h, names, e)
  {
    forall s | s in names ensures Shown(h, names, e, s) {
      assert Shown(g, names, e, s);
    }
  }

  lemma DisconnectedBooks(g: Graph, s: Ref)
    requires HasLink(g, s)
    ensures Books(g, Disconnected(g, s), s)
  {
    hide Books, Close, Without;
    var m := Marked(g, s);
    EditBooks(g, s, g.locals[s].(lost := true));
    CutBooks(m, s);
    CloseBooks(Unlink(m, s), s, true);
    BooksTrans(g, m, Unlink(m, s), s);
    BooksTrans(g, Unlink(m, s), Disconnected(g, s), s);
  }

  lemma CutBooks(g: Graph, s: Ref)
    requires HasLink(g, s)
    ensures Books(g, Unlink(g, s), s) && s in Unlink(g, s).locals && Unlink(g, s).locals[s].peer.None?
  {
    hide Without;
  }

  lemma CoreLinked(g: Graph, s: Ref)
    requires Core(g) && HasLink(g, s)
    ensures View(g, s).phase.Linked?
  {
    hide Core;
    LinkIsActive(g, s);
  }

  /** One socket goes with the old session. */
  lemma LoseShows(g: Graph, names: map<Ref, nat>, s: Link.System, r: Ref)
    requires Core(g) && HasLink(g, r) && Shows(g, names, s.a)
    ensures r in names && Link.EnabledA(s, Link.Lose(names[r]))
    ensures var s' := Link.ApplyA(s, Link.Lose(names[r]));
            Shows(Disconnected(g, r), names, s'.a) && s' == s.(a := s'.a)
  {
    hide Core, Only, View, Shows, Disconnected, Spec.Lost, Books;
    ShownActive(g, names, s.a, r);
    CoreLinked(g, r);
    DisconnectedCore(g, r);
    Isolation.DisconnectedParts(g, r);
    DisconnectedBooks(g, r);
    EntryShows(g, Disconnected(g, r), names, s.a, r, Spec.Lost(View(g, r)));
    assert s.ab + Link.Address(names[r], s.a.socks[names[r]].peer, []) == s.ab;
  }

  lemma ForwardShows(g: Graph, name: string, names: map<Ref, nat>, e: Link.Endpoint)
    requires Shows(g, names, e)
    ensures Shows(Isolation.DropForward(g, name), names, e)
  {
    hide Shows, Without, Isolation.Lookup;
    SameShows(g, Isolation.DropForward(g, name), names, e);
  }

  /** The callbacks of the old session: `Link` loses the sockets one by one. */
  lemma {:induction false} CallbacksShow(g: Graph, t: Ref, ds: seq<Disconnect>, names: map<Ref, nat>, s: Link.System)
    returns (sts: seq<Link.Step>, s': Link.System)
    requires Core(g) && t in g.transports && g.transports[t].disconnects == ds && Shows(g, names, s.a)
    ensures Path(s, sts, s') && Shows(Isolation.RunAll(g, ds), names, s'.a) && s' == s.(a := s'.a)
    decreases |ds|
  {
    hide Core, Shows, Isolation.Away, Isolation.CallDisconnect, Disconnected, Isolation.DropForward,
         Safety.LiveEntry, Link.EnabledA, Link.ApplyA;
    sts, s' := [], s;
    if ds != [] {
      Isolation.CallHead(g, t);
      var h, first, s1 := CallbackShows(g, t, ds[0], names, s);
      var rest;
      rest, s' := CallbacksShow(h, t, ds[1..], names, s1);
      sts := first + rest;
      PathThen(s, first, s1, rest, s');
    }
  }

  lemma CallbackShows(g: Graph, t: Ref, d: Disconnect, names: map<Ref, nat>, s: Link.System)
    returns (h: Graph, sts: seq<Link.Step>, s': Link.System)
    requires Core(g) && t in g.transports && d in g.transports[t].disconnects && Shows(g, names, s.a)
    ensures h == Isolation.CallDisconnect(g, d)
    ensures Path(s, sts, s') && Shows(h, names, s'.a) && s' == s.(a := s'.a)
  {
    hide Core, Shows, Isolation.CallDisconnect, Disconnected, Isolation.DropForward, Safety.LiveEntry,
         Link.EnabledA, Link.ApplyA;
    Safety.EntryLives(g, t, d);
    Safety.CallIs(g, d);
    h, sts, s' := Isolation.CallDisconnect(g, d), [], s;
    match d
    case OfForward(name) => ForwardShows(g, name, names, s.a);
    case OfSocket(r) =>
      var u := g.remotes[r].peer;
      LoseShows(g, names, s, u);
      OnePath(s, Link.Lose(names[u]));
      sts, s' := [Link.Step(true, Link.Lose(names[u]))], Link.ApplyA(s, Link.Lose(names[u]));
  }

  lemma {:induction false} PathThen(s: Link.System, a: seq<Link.Step>, t: Link.System, b: seq<Link.Step>,
                                    u: Link.System)
    requires Path(s, a, t) && Path(t, b, u)
    ensures Path(s, a + b, u)
    decreases |a|
  {
    hide Link.Enabled, Link.Apply;
    if a == [] {
      assert a + b == b;
    } else {
      PathThen(Link.Apply(s, a[0]), a[1..], t, b, u);
      assert (a + b)[1..] == a[1..] + b;
    }
  }

  /** CNXN: the engine begins a new session, whatever is still on the wires. */
  lemma ConnectModels(p: Pair, s: Link.System, banner: string) returns (sts: seq<Link.Step>, s': Link.System)
    requires Models(p, s) && p.a.t in p.a.g.transports
    ensures Path(s, sts, s') && Models(MoveA(p, Isolation.OnCnxn(p.a.g, p.a.t, banner)), s')
  {
    hide Core, Online, Shows, Isolation.RunAll, Isolation.Purged, Isolation.BannerState, Path;
    var g, t, names := p.a.g, p.a.t, p.a.names;
    var e := Isolation.SetState(g, t, Offline, false);
    Isolation.SetStateCore(g, t, Offline, false);
    SameShows(g, e, names, s.a);
    sts, s' := CallbacksShow(e, t, g.transports[t].disconnects, names, s);
    var h := Isolation.OnCnxn(g, t, banner);
    Isolation.CnxnPurges(g, t, banner);
    LiveSession(g, t);
    NewSession(g, h, t, banner);
    SameShows(Isolation.GoOffline(g, t), h, names, s'.a);
    assert p.ab + [] == p.ab;
  }

  /** Every linked socket goes with the session, and says nothing. */
  lemma ConnectLoses(p: Pair, s: Link.System, banner: string, r: Ref)
    requires Models(p, s) && EnabledA(p, Connect(banner)) && HasLink(p.a.g, r)
    ensures var q := ApplyA(p, Connect(banner));
            View(q.a.g, r) == Spec.Lost(View(p.a.g, r)) && View(q.a.g, r).lost && q.ab == p.ab
  {
    hide Valid, OnOne, Shows, Isolation.OnCnxn, View, SentSince, Spec.Lost;
    SessionLoses(p.a.g, p.a.t, banner, r);
    NewSession(p.a.g, Isolation.OnCnxn(p.a.g, p.a.t, banner), p.a.t, banner);
    assert p.ab + [] == p.ab;
  }

  lemma SessionLoses(g: Graph, t: Ref, banner: string, r: Ref)
    requires Valid(g) && OnOne(g, t) && HasLink(g, r)
    ensures t in g.transports
    ensures var h := Isolation.OnCnxn(g, t, banner); View(h, r) == Spec.Lost(View(g, r)) && View(h, r).lost
  {
    hide Valid, Isolation.OnCnxn, View, SameFront;
    OnlyLink(g, t, r);
    Isolation.CnxnPurges(g, t, banner);
  }

  lemma LiveSession(g: Graph, t: Ref)
    requires Valid(g) && OnOne(g, t)
    ensures g.transports[t].state != Offline
  {
    hide Core;
    assert SessionOk(g.transports[t]);
  }

  /** Afterwards the engine is on the one transport again, with nothing linked. */
  lemma NewSession(g: Graph, h: Graph, t: Ref, banner: string)
    requires Valid(g) && OnOne(g, t) && h == Isolation.OnCnxn(g, t, banner)
    ensures OnOne(h, t) && h.transports[t].sent == g.transports[t].sent && SentSince(g, h, t) == []
    ensures var o := Isolation.GoOffline(g, t);
            h == o.(transports := h.transports) && h.transports.Keys == o.transports.Keys
  {
    hide Core, Online, Isolation.BannerState, Spec.Lost, View;
    LiveSession(g, t);
    Isolation.CnxnPurges(g, t, banner);
    Isolation.OfflinePurges(g, t);
    OfflineIssues(g, t);
    hide Isolation.GoOffline;
  }

  lemma OfflineIssues(g: Graph, t: Ref)
    requires Valid(g) && t in g.transports
    ensures Isolation.GoOffline(g, t).issued == g.issued
  {
    hide Core, Isolation.RunAll;
    Isolation.SetStateCore(g, t, Offline, false);
    CallbacksIssue(Isolation.SetState(g, t, Offline, false), t, g.transports[t].disconnects);
  }

  lemma {:induction false} CallbacksIssue(g: Graph, t: Ref, ds: seq<Disconnect>)
    requires Core(g) && t in g.transports && g.transports[t].disconnects == ds
    ensures Isolation.RunAll(g, ds).issued == g.issued
    decreases |ds|
  {
    hide Core, Isolation.Away, Isolation.CallDisconnect;
    if ds != [] {
      Isolation.CallHead(g, t);
      CallbackIssues(g, t, ds[0]);
      CallbacksIssue(Isolation.CallDisconnect(g, ds[0]), t, ds[1..]);
    }
  }

  lemma CallbackIssues(g: Graph, t: Ref, d: Disconnect)
    requires Core(g) && t in g.transports && d in g.transports[t].disconnects
    ensures Isolation.CallDisconnect(g, d).issued == g.issued
  {
    hide Core, Isolation.CallDisconnect, Disconnected, Safety.LiveEntry, Without, Isolation.Lookup;
    Safety.EntryLives(g, t, d);
    Safety.CallIs(g, d);
    match d
    case OfForward(name) =>
    case OfSocket(r) => DisconnectedBooks(g, g.remotes[r].peer);
  }

  lemma StepModelsA(p: Pair, s: Link.System, e: Event) returns (sts: seq<Link.Step>, s': Link.System)
    requires Link.Inv(s) && Models(p, s) && EnabledA(p, e)
    ensures Path(s, sts, s') && Models(ApplyA(p, e), s')
  {
    hide Models, Link.Inv, Link.EnabledA, Link.ApplyA, Runs.InputGone;
    if e.InputExits? {
      sts, s' := LeaveModels(p, s);
    } else if e.Connect? {
      sts, s' := ConnectModels(p, s, e.banner);
    } else if Runs.OnFront(EngineEvent(p, e)) {
      sts, s' := ClientModels(p, s, e);
    } else if e.CanRead? && !p.a.g.locals[e.s].wantRead {
      sts, s' := StaleModels(p, s, e);
    } else {
      var x := if e.Arrive? then Link.Arrive(e.accept, e.env) else LinkEvent(p, e);
      if e.Arrive? {
        ArriveModels(p, s, e);
      } else {
        SingleModels(p, s, e);
      }
      OnePath(s, x);
      sts, s' := [Link.Step(true, x)], Link.ApplyA(s, x);
    }
  }

  /** A step of either engine is a path of `Link`, with the same packets. */
  lemma StepModels(p: Pair, s: Link.System, st: Step) returns (sts: seq<Link.Step>, s': Link.System)
    requires Link.Inv(s) && Models(p, s) && Enabled(p, st)
    ensures Path(s, sts, s') && Models(Apply(p, st), s')
  {
    hide Models, Link.Inv, EnabledA, ApplyA, Path;
    if st.atA {
      sts, s' := StepModelsA(p, s, st.event);
    } else {
      FlipModels(p, s);
      Link.FlipInv(s);
      sts, s' := StepModelsA(Flip(p), Link.Flip(s), st.event);
      FlipModels(ApplyA(Flip(p), st.event), s');
      FlipPath(Link.Flip(s), sts, s');
      sts, s' := Turned(sts), Link.Flip(s');
    }
  }

  // ---- every run ----

  /** An engine with one transport online and no socket yet. */
  ghost predicate Blank(x: Side) {
    && Valid(x.g) && x.t in x.g.transports && x.g.transports[x.t].online
    && x.g.issued == 0 && x.g.locals == map[] && x.g.past == map[] && x.g.remotes == map[] && x.names == map[]
  }

  /** A server to which a first device has just connected is such an engine. */
  lemma BlankAfterConnect(t: Ref, banner: string)
    ensures Runs.Can(Runs.Boot, Runs.Register(t, false))
    ensures var g := Runs.After(Runs.Boot, Runs.Register(t, false));
            && Runs.Can(g, Runs.GetConnect(t, banner))
            && Blank(Side(Runs.After(g, Runs.GetConnect(t, banner)), t, map[]))
            && forall c, x, ab, ba ::
                 Receives(Pair(Side(Runs.After(g, Runs.GetConnect(t, banner)), t, map[]), x, ab, ba), "tcp:5037", c)
  {
    hide Valid, Isolation.BannerState, Runs.AllMove, Runs.Tenures, Runs.Born, Isolation.GoOffline;
    Runs.BootGood();
    Runs.StepGood(Runs.Boot, Runs.Register(t, false));
    var g := Runs.After(Runs.Boot, Runs.Register(t, false));
    Runs.StepGood(g, Runs.GetConnect(t, banner));
  }

  lemma BlankModels(p: Pair)
    requires Blank(p.a) && Blank(p.b) && p.ab == [] && p.ba == []
    ensures Models(p, Link.Start)
  {
    hide Valid;
    BlankOk(p.a);
    BlankOk(p.b);
    hide SideOk;
    assert AsPackets([]) == [];
  }

  lemma BlankOk(x: Side)
    requires Blank(x)
    ensures SideOk(x, Link.Endpoint(1, map[], map[]))
  {
    hide Valid;
  }

  ghost predicate Run(states: seq<Pair>, steps: seq<Step>) {
    && |states| == |steps| + 1
    && Blank(states[0].a) && Blank(states[0].b) && states[0].ab == [] && states[0].ba == []
    && forall i :: 0 <= i < |steps| ==> Enabled(states[i], steps[i]) && states[i + 1] == Apply(states[i], steps[i])
  }

  /** A run of `Link` goes on along a path. */
  lemma {:induction false} RunOn(ls: seq<Link.System>, lsteps: seq<Link.Step>, sts: seq<Link.Step>, s': Link.System)
    returns (ms: seq<Link.System>, msteps: seq<Link.Step>)
    requires Link.Run(ls, lsteps) && Path(ls[|lsteps|], sts, s')
    ensures Link.Run(ms, msteps) && ls <= ms && ms[|msteps|] == s'
    decreases |sts|
  {
    hide Link.Enabled, Link.Apply;
    ms, msteps := ls, lsteps;
    if sts != [] {
      var next := Link.Apply(ls[|lsteps|], sts[0]);
      ms, msteps := RunOn(ls + [next], lsteps + [sts[0]], sts[1..], s');
    }
  }

  /** State i of a run of engines is state at[i] of a run of `Link`. */
  ghost predicate Follows(states: seq<Pair>, ls: seq<Link.System>, at: seq<nat>) {
    && |at| == |states|
    && (forall i, j :: 0 <= i <= j < |at| ==> at[i] <= at[j])
    && (forall i :: 0 <= i < |at| ==> at[i] < |ls| && Models(states[i], ls[at[i]]))
  }

  /** Every run of two engines is a run of `Link`, which passes through the states of the engines in turn. */
  lemma {:induction false} EnginesRunAsLink(states: seq<Pair>, steps: seq<Step>)
    returns (ls: seq<Link.System>, lsteps: seq<Link.Step>, at: seq<nat>)
    requires Run(states, steps)
    ensures Link.Run(ls, lsteps) && Follows(states, ls, at) && at[|at| - 1] == |lsteps|
    decreases |steps|
  {
    hide Models, Enabled, Apply, Link.Enabled, Link.Apply, Blank, Path;
    var n := |steps|;
    if n == 0 {
      BlankModels(states[0]);
      ls, lsteps, at := [Link.Start], [], [0];
    } else {
      assert Run(states[..n], steps[..n - 1]);
      var ks, ksteps, old' := EnginesRunAsLink(states[..n], steps[..n - 1]);
      assert Models(states[n - 1], ks[|ksteps|]);
      Link.RunKeeps(ks, ksteps, |ksteps|);
      var sts, s' := StepModels(states[n - 1], ks[|ksteps|], steps[n - 1]);
      ls, lsteps := RunOn(ks, ksteps, sts, s');
      at := old' + [|lsteps|];
    }
  }

  // ---- what `Link` proves, of the engines ----

  /** What is on its way from one socket to another. */
  function InFlight(ws: seq<Wire>, from: nat, to: nat): seq<Spec.Msg> {
    if ws == [] then []
    else (if OfStream(ws[0]) && ws[0].from == from && ws[0].to == to then [AsPacket(ws[0]).msg] else [])
         + InFlight(ws[1..], from, to)
  }

  lemma {:induction false} InFlightIs(ws: seq<Wire>, from: nat, to: nat)
    requires AllOfStreams(ws)
    ensures InFlight(ws, from, to) == Link.Between(AsPackets(ws), from, to)
  {
    if ws != [] {
      FirstPacket(ws);
      InFlightIs(ws[1..], from, to);
    }
  }

  /** Socket u of engine b is the one that the link of socket s of engine a names. */
  ghost predicate LinkedTo(p: Pair, s: Ref, u: Ref) {
    HasLink(p.a.g, s) && u in p.b.names && p.b.names[u] == p.a.g.remotes[p.a.g.locals[s].peer.value].id
  }

  lemma LinkedNames(p: Pair, sys: Link.System, s: Ref, u: Ref)
    requires Link.Inv(sys) && Models(p, sys) && LinkedTo(p, s, u)
    ensures s in p.a.names && Link.Mated(sys, p.a.names[s], p.b.names[u])
  {
    hide Valid, OnOne, Shows, Link.Inv, View, Link.Mated;
    ShownActive(p.a.g, p.a.names, sys.a, s);
    LinkedPhase(p.a.g, s);
    Link.LinkedMated(sys, p.a.names[s]);
  }

  lemma LinkedPhase(g: Graph, s: Ref)
    requires Valid(g) && HasLink(g, s)
    ensures View(g, s).phase.Linked?
  {
    LinkedFields(g, s);
    hide Valid;
  }

  /** A socket keeps its name. */
  lemma NamesKeptA(p: Pair, sys: Link.System, e: Event, s: Ref)
    requires Models(p, sys) && EnabledA(p, e) && s in p.a.names
    ensures s in ApplyA(p, e).a.names && ApplyA(p, e).a.names[s] == p.a.names[s]
  {
    hide OnOne, Runs.After;
    NextIsNew(p.a.g, p.a.names, sys.a);
  }

  lemma NamesKept(p: Pair, sys: Link.System, st: Step, s: Ref, u: Ref)
    requires Models(p, sys) && Enabled(p, st) && s in p.a.names && u in p.b.names
    ensures var q := Apply(p, st);
            s in q.a.names && q.a.names[s] == p.a.names[s] && u in q.b.names && q.b.names[u] == p.b.names[u]
  {
    hide Models, EnabledA, Runs.After;
    if st.atA {
      NamesKeptA(p, sys, st.event, s);
    } else {
      FlipModels(p, sys);
      NamesKeptA(Flip(p), Link.Flip(sys), st.event, u);
    }
  }

  lemma {:induction false} RunNames(states: seq<Pair>, steps: seq<Step>, ls: seq<Link.System>, at: seq<nat>,
                                    m: nat, n: nat, s: Ref, u: Ref)
    requires Run(states, steps) && Follows(states, ls, at) && m <= n < |states|
    requires s in states[m].a.names && u in states[m].b.names
    ensures s in states[n].a.names && states[n].a.names[s] == states[m].a.names[s]
    ensures u in states[n].b.names && states[n].b.names[u] == states[m].b.names[u]
    decreases n - m
  {
    hide Models, Enabled, Apply, Blank;
    if m < n {
      NamesKept(states[m], ls[at[m]], steps[m], s, u);
      RunNames(states, steps, ls, at, m + 1, n, s, u);
    }
  }

  /** The stream of two mated sockets, as the engines have it. */
  lemma StreamOf(p: Pair, sys: Link.System, s: Ref, u: Ref) returns (v: Stream.Stream)
    requires Link.Inv(sys) && Models(p, sys) && s in p.a.names && u in p.b.names
    requires Link.Mated(sys, p.a.names[s], p.b.names[u])
    ensures Stream.Inv(v) && v.a == View(p.a.g, s) && v.b == View(p.b.g, u) && !v.b.phase.Fresh? && !v.a.phase.Fresh?
    ensures v.ab == InFlight(p.ab, p.a.names[s], p.b.names[u]) && v.ba == InFlight(p.ba, p.b.names[u], p.a.names[s])
  {
    hide Valid, OnOne, Stream.Inv, Link.Inv, Link.Mated, View, InFlight, Link.Between, Link.Around;
    Link.MatedStream(sys, p.a.names[s], p.b.names[u]);
    assert Shown(p.a.g, p.a.names, sys.a, s) && Shown(p.b.g, p.b.names, sys.b, u);
    InFlightIs(p.ab, p.a.names[s], p.b.names[u]);
    InFlightIs(p.ba, p.b.names[u], p.a.names[s]);
    v := Link.Around(sys, p.a.names[s]);
  }

  /** Two sockets that were linked at state m, as they are at state n. */
  function Between(p: Pair, s: Ref, u: Ref): Stream.Stream
    requires s in p.a.names && u in p.b.names
  {
    Stream.Stream(View(p.a.g, s), View(p.b.g, u),
                  InFlight(p.ab, p.a.names[s], p.b.names[u]), InFlight(p.ba, p.b.names[u], p.a.names[s]))
  }

  lemma StreamFromA(states: seq<Pair>, steps: seq<Step>, m: nat, n: nat, s: Ref, u: Ref)
    requires Run(states, steps) && m <= n < |states| && LinkedTo(states[m], s, u)
    ensures s in states[n].a.names && u in states[n].b.names
    ensures var v := Between(states[n], s, u); Stream.Inv(v) && !v.a.phase.Fresh? && !v.b.phase.Fresh?
  {
    hide Models, Run, View, Link.Inv, Link.Run, Link.Mated, Stream.Inv, InFlight;
    var ls, lsteps, at := EnginesRunAsLink(states, steps);
    Link.RunKeeps(ls, lsteps, at[m]);
    Link.RunKeeps(ls, lsteps, at[n]);
    LinkedNames(states[m], ls[at[m]], s, u);
    RunNames(states, steps, ls, at, m, n, s, u);
    Link.RunMated(ls, lsteps, at[m], at[n], states[m].a.names[s], states[m].b.names[u]);
    var v := StreamOf(states[n], ls[at[n]], s, u);
  }

  // ---- the same run, seen from the other end ----

  function FlipAll(states: seq<Pair>): (r: seq<Pair>)
    ensures |r| == |states| && forall i :: 0 <= i < |states| ==> r[i] == Flip(states[i])
  {
    seq(|states|, i requires 0 <= i < |states| => Flip(states[i]))
  }

  function TurnAll(steps: seq<Step>): (r: seq<Step>)
    ensures |r| == |steps| && forall i :: 0 <= i < |steps| ==> r[i] == steps[i].(atA := !steps[i].atA)
  {
    seq(|steps|, i requires 0 <= i < |steps| => steps[i].(atA := !steps[i].atA))
  }

  lemma TurnStep(p: Pair, st: Step)
    requires Enabled(p, st)
    ensures var turned := st.(atA := !st.atA);
            Enabled(Flip(p), turned) && Apply(Flip(p), turned) == Flip(Apply(p, st))
  {
    hide EnabledA, ApplyA;
    assert Flip(Flip(p)) == p;
  }

  lemma FlipRun(states: seq<Pair>, steps: seq<Step>)
    requires Run(states, steps)
    ensures Run(FlipAll(states), TurnAll(steps))
  {
    hide Blank, Enabled, Apply;
    forall i | 0 <= i < |steps|
      ensures Enabled(FlipAll(states)[i], TurnAll(steps)[i])
      ensures FlipAll(states)[i + 1] == Apply(FlipAll(states)[i], TurnAll(steps)[i])
    {
      TurnStep(states[i], steps[i]);
    }
  }

  /** One of the two sockets is linked and its link names the other. */
  ghost predicate Joined(p: Pair, s: Ref, u: Ref) {
    LinkedTo(p, s, u) || LinkedTo(Flip(p), u, s)
  }

  lemma FlipBetween(p: Pair, s: Ref, u: Ref)
    requires s in p.a.names && u in p.b.names
    ensures Between(Flip(p), u, s) == Stream.Flip(Between(p, s, u))
  {
    hide InFlight, View;
  }

  lemma EngineStream(states: seq<Pair>, steps: seq<Step>, m: nat, n: nat, s: Ref, u: Ref)
    requires Run(states, steps) && m <= n < |states| && Joined(states[m], s, u)
    ensures s in states[n].a.names && u in states[n].b.names
    ensures var v := Between(states[n], s, u); Stream.Inv(v) && !v.a.phase.Fresh? && !v.b.phase.Fresh?
  {
    hide Run, Stream.Inv, LinkedTo, Between;
    if LinkedTo(states[m], s, u) {
      StreamFromA(states, steps, m, n, s, u);
    } else {
      FlipRun(states, steps);
      StreamFromA(FlipAll(states), TurnAll(steps), m, n, u, s);
      FlipBetween(states[n], s, u);
      Stream.FlipInv(Between(states[n], s, u));
    }
  }

  // ---- what the descriptors gave and took ----

  /** The pair, seen from one of its ends. */
  function From(p: Pair, atA: bool): Pair {
    if atA then p else Flip(p)
  }

  /** What the read calls of step st give to socket s of one engine, for its far side. */
  ghost function ReadAt(p: Pair, st: Step, atA: bool, s: Ref): bytes
    requires Enabled(p, st)
  {
    if st.atA == atA then Ledger.ReadIn(From(p, atA).a.g, EngineEvent(From(p, atA), st.event), s) else []
  }

  /** What the write calls of step st take from it. */
  ghost function WrittenAt(p: Pair, st: Step, atA: bool, s: Ref): bytes
    requires Enabled(p, st)
  {
    if st.atA == atA then Ledger.WrittenIn(From(p, atA).a.g, EngineEvent(From(p, atA), st.event), s) else []
  }

  /** Step st makes it close of its own accord. */
  ghost predicate FaultAt(p: Pair, st: Step, atA: bool, s: Ref)
    requires Enabled(p, st)
  {
    st.atA == atA && Ledger.FaultIn(From(p, atA).a.g, EngineEvent(From(p, atA), st.event), s)
  }

  /** The same of the first n steps of a run. */
  ghost function ReadBy(states: seq<Pair>, steps: seq<Step>, n: nat, atA: bool, s: Ref): bytes
    requires Run(states, steps) && n <= |steps|
  {
    if n == 0 then [] else ReadBy(states, steps, n - 1, atA, s) + ReadAt(states[n - 1], steps[n - 1], atA, s)
  }

  ghost function WrittenBy(states: seq<Pair>, steps: seq<Step>, n: nat, atA: bool, s: Ref): bytes
    requires Run(states, steps) && n <= |steps|
  {
    if n == 0 then [] else WrittenBy(states, steps, n - 1, atA, s) + WrittenAt(states[n - 1], steps[n - 1], atA, s)
  }

  ghost predicate FaultBy(states: seq<Pair>, steps: seq<Step>, n: nat, atA: bool, s: Ref)
    requires Run(states, steps) && n <= |steps|
  {
    exists i :: 0 <= i < n && FaultAt(states[i], steps[i], atA, s)
  }

  lemma RunLength(states: seq<Pair>, steps: seq<Step>)
    requires Run(states, steps)
    ensures |states| == |steps| + 1
  {
    hide Blank, Enabled, Apply;
  }

  lemma EventIsProtocol(p: Pair, e: Event)
    requires EnabledA(p, e)
    ensures !Runs.OnForwards(EngineEvent(p, e))
  {
    hide Runs.Can, Here;
  }

  lemma StepBooksA(p: Pair, sys: Link.System, e: Event, s: Ref)
    requires Models(p, sys) && EnabledA(p, e)
    ensures var x := EngineEvent(p, e);
            Ledger.Books(View(p.a.g, s), View(ApplyA(p, e).a.g, s),
                         Ledger.ReadIn(p.a.g, x, s), Ledger.WrittenIn(p.a.g, x, s), Ledger.FaultIn(p.a.g, x, s))
  {
    hide Valid, OnOne, Shows, View, Runs.After, Runs.Can, Here, Ledger.Books;
    EventIsProtocol(p, e);
    Ledger.ProtocolBooked(p.a.g, EngineEvent(p, e), s);
  }

  lemma StepBooks(p: Pair, sys: Link.System, st: Step, atA: bool, s: Ref)
    requires Models(p, sys) && Enabled(p, st)
    ensures Ledger.Books(View(From(p, atA).a.g, s), View(From(Apply(p, st), atA).a.g, s),
                         ReadAt(p, st, atA, s), WrittenAt(p, st, atA, s), FaultAt(p, st, atA, s))
  {
    hide Models, View, EnabledA, ApplyA, Ledger.Books, Ledger.ReadIn, Ledger.WrittenIn, Ledger.FaultIn;
    if st.atA == atA {
      if atA {
        StepBooksA(p, sys, st.event, s);
      } else {
        FlipModels(p, sys);
        StepBooksA(Flip(p), Link.Flip(sys), st.event, s);
      }
    } else {
      FarStays(p, st);
      Ledger.SameBooks(View(From(p, atA).a.g, s), View(From(Apply(p, st), atA).a.g, s));
    }
  }

  lemma FarStays(p: Pair, st: Step)
    requires Enabled(p, st)
    ensures if st.atA then Apply(p, st).b == p.b else Apply(p, st).a == p.a
  {
    hide EnabledA, Runs.After;
  }

  lemma {:induction false} RunBooks(states: seq<Pair>, steps: seq<Step>, ls: seq<Link.System>, at: seq<nat>,
                                    n: nat, atA: bool, s: Ref)
    requires Run(states, steps) && Follows(states, ls, at) && n <= |steps|
    ensures Ledger.Books(Spec.FreshSock, View(From(states[n], atA).a.g, s), ReadBy(states, steps, n, atA, s),
                         WrittenBy(states, steps, n, atA, s), FaultBy(states, steps, n, atA, s))
  {
    hide Models, View, Enabled, Apply, Blank, From, Ledger.Books, ReadAt, WrittenAt, FaultAt;
    if n == 0 {
      BlankFresh(states[0], atA, s);
      Ledger.SameBooks(Spec.FreshSock, Spec.FreshSock);
    } else {
      var p, st := states[n - 1], steps[n - 1];
      RunBooks(states, steps, ls, at, n - 1, atA, s);
      StepBooks(p, ls[at[n - 1]], st, atA, s);
      Ledger.BooksTrans(Spec.FreshSock, View(From(p, atA).a.g, s), View(From(states[n], atA).a.g, s),
                        ReadBy(states, steps, n - 1, atA, s), ReadAt(p, st, atA, s),
                        WrittenBy(states, steps, n - 1, atA, s), WrittenAt(p, st, atA, s),
                        FaultBy(states, steps, n - 1, atA, s), FaultAt(p, st, atA, s));
    }
  }

  lemma BlankFresh(p: Pair, atA: bool, s: Ref)
    requires Blank(p.a) && Blank(p.b)
    ensures View(From(p, atA).a.g, s) == Spec.FreshSock
  {
    hide Valid;
  }

  /**
   In every run of two engines, told from the steps alone: what a socket has read and written is what its descriptor
   gave and took, and it has closed of its own accord exactly if one of the steps made it.
   */
  lemma EnginesBooks(states: seq<Pair>, steps: seq<Step>, n: nat, atA: bool, s: Ref)
    requires Run(states, steps) && n <= |steps|
    ensures var x := View(From(states[n], atA).a.g, s);
            && x.got == ReadBy(states, steps, n, atA, s) && Spec.Payload(x.out) == WrittenBy(states, steps, n, atA, s)
            && (x.fault <==> FaultBy(states, steps, n, atA, s))
  {
    hide Run, Follows, View, From, FaultBy;
    var ls, lsteps, at := EnginesRunAsLink(states, steps);
    RunBooks(states, steps, ls, at, n, atA, s);
    assert Spec.Payload(Spec.FreshSock.out) == [];
  }

  /**
   In every run of two engines, of two sockets one of which was once linked to the other: what the
   write calls of either have taken is a prefix of what the read calls of the other gave.
   */
  lemma EnginesInOrder(states: seq<Pair>, steps: seq<Step>, m: nat, n: nat, s: Ref, u: Ref)
    requires Run(states, steps) && m <= n <= |steps| && Joined(states[m], s, u)
    ensures WrittenBy(states, steps, n, false, u) <= ReadBy(states, steps, n, true, s)
    ensures WrittenBy(states, steps, n, true, s) <= ReadBy(states, steps, n, false, u)
  {
    hide Run, View, FaultBy, ReadBy, WrittenBy;
    RunLength(states, steps);
    EngineStream(states, steps, m, n, s, u);
    EnginesBooks(states, steps, n, true, s);
    EnginesBooks(states, steps, n, false, u);
  }

  /** While neither has begun closing, each direction has exactly one credit. */
  lemma EnginesOneCredit(states: seq<Pair>, steps: seq<Step>, m: nat, n: nat, s: Ref, u: Ref)
    requires Run(states, steps) && m <= n < |states| && Joined(states[m], s, u)
    requires Spec.Active(View(states[n].a.g, s)) && Spec.Active(View(states[n].b.g, u))
    ensures s in states[n].a.names && u in states[n].b.names
    ensures var v := Between(states[n], s, u);
            && Stream.Bit(v.a.wantRead) + Stream.Writes(v.ab) + |v.b.queue| + Stream.Okays(v.ba) == 1
            && Stream.Bit(v.b.wantRead) + Stream.Writes(v.ba) + |v.a.queue| + Stream.Okays(v.ab) == 1
  {
    hide Run, View, InFlight;
    EngineStream(states, steps, m, n, s, u);
  }

  /**
   One that has gone, and that no step made close of its own accord, was given every byte that the read calls of the
   other gave, and the other had closed.
   */
  lemma EnginesAllDelivered(states: seq<Pair>, steps: seq<Step>, m: nat, n: nat, s: Ref, u: Ref)
    requires Run(states, steps) && m <= n <= |steps| && Joined(states[m], s, u)
    ensures var x, y := View(states[n].a.g, s), View(states[n].b.g, u);
            && (x.phase.Gone? && !FaultBy(states, steps, n, true, s) ==>
                  WrittenBy(states, steps, n, true, s) == ReadBy(states, steps, n, false, u) && !Spec.Active(y))
            && (y.phase.Gone? && !FaultBy(states, steps, n, false, u) ==>
                  WrittenBy(states, steps, n, false, u) == ReadBy(states, steps, n, true, s) && !Spec.Active(x))
  {
    hide Run, View, FaultBy, ReadBy, WrittenBy;
    RunLength(states, steps);
    EngineStream(states, steps, m, n, s, u);
    EnginesBooks(states, steps, n, true, s);
    EnginesBooks(states, steps, n, false, u);
  }

  /**
   One that is still linked after the other has closed has a CLOSE on its way, unless the other was
   never linked or went with its session.
   */
  lemma EnginesCloseIsComing(states: seq<Pair>, steps: seq<Step>, m: nat, n: nat, s: Ref, u: Ref)
    requires Run(states, steps) && m <= n < |states| && Joined(states[m], s, u)
    ensures s in states[n].a.names && u in states[n].b.names
    ensures var v := Between(states[n], s, u);
            && (v.a.phase.Linked? && !Spec.Active(v.b) ==> (Spec.MClose in v.ba <==> v.b.ever && !v.b.lost))
            && (v.b.phase.Linked? && !Spec.Active(v.a) ==> (Spec.MClose in v.ab <==> v.a.ever && !v.a.lost))
  {
    hide Run, View, InFlight;
    EngineStream(states, steps, m, n, s, u);
  }

  // ---- the stream that is half open for good ----

  /** A socket that `Link` does not show as gone is there. */
  lemma OpenIsThere(x: Side, e: Link.Endpoint, k: nat) returns (s: Ref)
    requires SideOk(x, e) && k in e.socks
    ensures s in x.names && x.names[s] == k && View(x.g, s) == e.socks[k].sock && e.next == x.g.issued + 1
    ensures s in x.g.locals <==> !View(x.g, s).phase.Gone?
    ensures View(x.g, s).phase.Linked? ==>
              HasLink(x.g, s) && x.g.remotes[x.g.locals[s].peer.value].id == e.socks[k].peer
  {
    hide Valid, OnOne, View;
    s :| s in x.names && x.names[s] == k;
    assert Shown(x.g, x.names, e, s);
    if s in x.g.locals {
      Runs.AliveOpen(x.g, s);
    }
    if View(x.g, s).phase.Linked? {
      PhaseLinked(x.g, s);
    }
  }

  lemma SideFacts(p: Pair, s: Link.System)
    requires Models(p, s)
    ensures p.a.t in p.a.g.transports && s.a.next == p.a.g.issued + 1 && |p.ba| == |s.ba| && |p.ab| == |s.ab|
    ensures s.ba != [] ==> OfStream(p.ba[0]) && AsPacket(p.ba[0]) == s.ba[0]
  {
    hide Valid;
  }

  lemma ArriveEnabled(p: Pair, s: Link.System, accept: bool)
    requires Models(p, s) && s.ba != [] && s.a.next < ID_CYCLE
    ensures EnabledA(p, Arrive(accept, []))
  {
    hide Models;
    SideFacts(p, s);
  }

  const GoneClient: Spec.Sock := Spec.Close(Spec.DialSock(true), true).sock

  /** What `Link` goes through in the run below: the client gone, its OPEN answered, the OKAY ignored. */
  const Left: Link.System :=
    Link.System(Link.Endpoint(2, map[1 := Link.Entry(GoneClient, 0, false)], map[]), Link.Start.b,
                [Link.Packet(1, 0, Spec.MOpen)], [])

  const Answered: Link.System :=
    Link.System(Left.a, Link.Endpoint(2, map[1 := Link.Entry(Spec.ServiceSock, 1, true)], map[1 := 1]),
                [], [Link.Packet(1, 1, Spec.MOkay)])

  lemma LinkGoesThere()
    ensures var s1 := Link.ApplyA(Link.Start, Link.Dial(true));
            Link.EnabledA(s1, Link.Abort(1, true)) && Link.ApplyA(s1, Link.Abort(1, true)) == Left
    ensures Link.Flip(Link.Handle(Link.Flip(Left), true, [])) == Answered
    ensures Link.Handle(Answered, true, []) == Answered.(ba := [])
  {
    var s1 := Link.ApplyA(Link.Start, Link.Dial(true));
    assert s1.ab == [Link.Packet(1, 0, Spec.MOpen)];
    assert Link.ApplyA(s1, Link.Abort(1, true)).a == Left.a;
  }

  /** A client can come to engine a and ask for its transport. */
  ghost predicate Receives(p: Pair, name: string, c: Ref) {
    && Isolation.Lookup(p.a.g.listeners, name).Some?
    && Forwards.Smart(Isolation.Lookup(p.a.g.listeners, name).value)
    && c !in p.a.g.front.clients && p.a.t in p.a.g.transports && Runs.Usable(p.a.g.transports[p.a.t].state)
  }

  /** It comes and chooses the transport. */
  lemma ComeAndChoose(p: Pair, name: string, c: Ref, dest: string) returns (p1: Pair, p2: Pair)
    requires Models(p, Link.Start) && Receives(p, name, c)
    ensures EnabledA(p, Accept(name, c)) && p1 == ApplyA(p, Accept(name, c))
    ensures EnabledA(p1, Choose(c)) && p2 == ApplyA(p1, Choose(c)) && Models(p2, Link.Start)
    ensures EnabledA(p2, Ask(c, dest)) && Rings(p2, Ask(c, dest))
  {
    hide Models, Isolation.Lookup, Forwards.Smart, SentSince;
    SideFacts(p, Link.Start);
    WaitingModels(p, Link.Start, Accept(name, c));
    p1 := ApplyA(p, Accept(name, c));
    WaitingModels(p1, Link.Start, Choose(c));
    p2 := ApplyA(p1, Choose(c));
  }

  /** Its request is handed to the device, and it hangs up. */
  lemma AskAndLeave(p: Pair, c: Ref, dest: string) returns (p1: Pair, p2: Pair, s: Ref)
    requires Models(p, Link.Start) && EnabledA(p, Ask(c, dest)) && Rings(p, Ask(c, dest))
    ensures p1 == ApplyA(p, Ask(c, dest))
    ensures EnabledA(p1, HangUp(s)) && p2 == ApplyA(p1, HangUp(s)) && Models(p2, Left)
  {
    hide Models, Link.Inv, ApplyA, SideOk, Rings;
    LinkGoesThere();
    Link.RunKeeps([Link.Start], [], 0);
    HandedModels(p, Link.Start, Ask(c, dest));
    p1 := ApplyA(p, Ask(c, dest));
    var s1 := Link.ApplyA(Link.Start, Link.Dial(true));
    Link.DialKeeps(Link.Start, true);
    SidesOf(p1, s1);
    s := OpenIsThere(p1.a, s1.a, 1);
    SingleModels(p1, s1, HangUp(s));
    p2 := ApplyA(p1, HangUp(s));
  }

  lemma SidesOf(p: Pair, s: Link.System)
    requires Models(p, s)
    ensures SideOk(p.a, s.a) && SideOk(p.b, s.b)
  {
    hide SideOk;
  }

  /** Its OPEN is answered, and the answer falls on deaf ears. */
  lemma AnswerIgnored(p: Pair) returns (p3: Pair, p4: Pair)
    requires Models(p, Left)
    ensures EnabledA(Flip(p), Arrive(true, [])) && p3 == Flip(ApplyA(Flip(p), Arrive(true, [])))
    ensures EnabledA(p3, Arrive(true, [])) && p4 == ApplyA(p3, Arrive(true, [])) && Models(p4, Answered.(ba := []))
  {
    hide Models, ApplyA, EnabledA;
    LinkGoesThere();
    FlipModels(p, Left);
    ArriveEnabled(Flip(p), Link.Flip(Left), true);
    ArriveModels(Flip(p), Link.Flip(Left), Arrive(true, []));
    p3 := Flip(ApplyA(Flip(p), Arrive(true, [])));
    FlipModels(ApplyA(Flip(p), Arrive(true, [])), Link.Handle(Link.Flip(Left), true, []));
    ArriveEnabled(p3, Answered, true);
    ArriveModels(p3, Answered, Arrive(true, []));
    p4 := ApplyA(p3, Arrive(true, []));
  }

  /**
   Two engines get to where a stream is half open for good, as `Link.HalfOpen` has it: the client
   hangs up before READY, so that its socket goes with the failure status and without a CLOSE; the
   service at the far end stays linked to it, and nothing is on its way.
   */
  lemma HalfOpen(p: Pair, name: string, c: Ref, dest: string)
    returns (states: seq<Pair>, steps: seq<Step>, s: Ref, u: Ref)
    requires Blank(p.a) && Blank(p.b) && p.ab == [] && p.ba == [] && Receives(p, name, c)
    ensures Run(states, steps) && states[0] == p
    ensures var q := states[|states| - 1];
            && q.ab == [] && q.ba == []
            && s !in q.a.g.locals && View(q.a.g, s).out == [Spec.FailStatus] && LinkedTo(Flip(q), u, s)
  {
    hide Models, Blank, ApplyA, EnabledA, SideOk, View, Receives, Rings;
    BlankModels(p);
    var p1, p2 := ComeAndChoose(p, name, c, dest);
    var p3, p4, client := AskAndLeave(p2, c, dest);
    var p5, p6 := AnswerIgnored(p4);
    steps := [Step(true, Accept(name, c)), Step(true, Choose(c)), Step(true, Ask(c, dest)),
              Step(true, HangUp(client)), Step(false, Arrive(true, [])), Step(true, Arrive(true, []))];
    states := [p, p1, p2, p3, p4, p5, p6];
    var end := Answered.(ba := []);
    SideFacts(p6, end);
    SidesOf(p6, end);
    s := OpenIsThere(p6.a, end.a, 1);
    u := OpenIsThere(p6.b, end.b, 1);
  }
}
