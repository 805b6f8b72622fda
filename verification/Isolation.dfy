/**
 Transports coming and going: what CNXN, SYNC, AUTH and HDSK do to the streams and forwards of one
 transport, and to those of no other (src/adb.c:216-228, 459-585, 660-684; src/transport.c:88-99).
 */
module Isolation {
  import opened Octets
  import Spec = SocketSpec
  import opened Lists
  import opened Graph
  import opened Handlers

  // ---- the disconnect callbacks ----

  function Lookup(ls: seq<Listener>, name: string): (r: Option<Listener>)
    ensures r.Some? ==> r.value in ls && r.value.localName == name
    ensures r.None? ==> forall l :: l in ls ==> l.localName != name
  {
    if ls == [] then None else if ls[0].localName == name then Some(ls[0]) else Lookup(ls[1..], name)
  }

  /** free_listener: off the list, and off the disconnect list of its transport. */
  function DropForward(g: Graph, name: string): Graph {
    match Lookup(g.listeners, name)
    case None => g
    case Some(l) =>
      var h := g.(listeners := Without(g.listeners, l));
      if l.transport.Some? && l.transport.value in g.transports then
        var x := g.transports[l.transport.value];
        h.(transports := g.transports[l.transport.value := x.(disconnects := Without(x.disconnects, OfForward(name)))])
      else h
  }

  function CallDisconnect(g: Graph, d: Disconnect): Graph {
    match d
    case OfForward(name) => DropForward(g, name)
    case OfSocket(r) =>
      if r in g.remotes && HasLink(g, g.remotes[r].peer) && g.locals[g.remotes[r].peer].peer == Some(r)
      then Disconnected(g, g.remotes[r].peer) else g
  }

  /** run_transport_disconnects over the list it starts with. */
  function RunAll(g: Graph, ds: seq<Disconnect>): Graph
    decreases |ds|
  {
    if ds == [] then g else RunAll(CallDisconnect(g, ds[0]), ds[1..])
  }

  predicate OnLink(g: Graph, s: Ref, t: Ref) {
    HasLink(g, s) && LinkOf(g, s) == t
  }

  /**
   Only what belongs to transport t may differ: a stream of t stands or is closed without a word,
   a forward of t stands or is gone, and the transport itself only has a shorter list.
   */
  ghost predicate Away(g: Graph, h: Graph, t: Ref) {
    && OthersStand(g, h, t)
    && (forall s :: s in g.locals ==> Stands(g, h, s) || (OnLink(g, s, t) && Falls(g, h, s)))
    && (forall s :: s in h.locals ==> s in g.locals)
    && (forall s :: s in g.past ==> s in h.past && h.past[s] == g.past[s])
  }

  ghost predicate OthersStand(g: Graph, h: Graph, t: Ref) {
    && SameFront(g, h)
    && (forall u :: u in g.transports && u != t ==> h.transports[u] == g.transports[u])
    && (t in g.transports ==> h.transports[t] == g.transports[t].(disconnects := h.transports[t].disconnects))
    && (forall r :: r in g.remotes && g.remotes[r].transport != t ==> r in h.remotes)
    && (forall r :: r in h.remotes ==> r in g.remotes && h.remotes[r] == g.remotes[r])
    && (forall l :: l in g.listeners && l.transport != Some(t) ==> l in h.listeners)
    && (forall l :: l in h.listeners ==> l in g.listeners)
  }

  predicate Stands(g: Graph, h: Graph, s: Ref)
    requires s in g.locals
  {
    s in h.locals && h.locals[s] == g.locals[s]
  }

  predicate Falls(g: Graph, h: Graph, s: Ref) {
    View(h, s) == Spec.Lost(View(g, s)) && (s in h.locals ==> h.locals[s].peer.None?)
  }

  /** What unlinking and retiring a socket changes, field by field. */
  lemma UnlinkRetireParts(g: Graph, s: Ref)
    requires HasLink(g, s) && g.remotes[g.locals[s].peer.value].peer == s && !g.locals[s].closing
    ensures s in Unlink(g, s).locals
    ensures var t := LinkOf(g, s);
            var r := g.locals[s].peer.value;
            var x := g.transports[t];
            var h := Retire(Unlink(g, s), s, true);
            && Only(g, h, s) && h.listeners == g.listeners && h.remotes == g.remotes - {r}
            && h.transports == g.transports[t := x.(disconnects := Without(x.disconnects, OfSocket(r)))]
            && View(h, s) == Spec.CloseLocked(View(g, s), true).sock
            && (s in h.locals ==> h.locals[s].peer.None?)
  {
    var u := Unlink(g, s);
    UnlinkDoes(g, s);
    RetireDoes(u, s, true);
    OnlyTrans(g, u, Retire(u, s, true), s);
    hide Retire, Without, Only;
  }

  /** The same of a socket that has lost its transport. */
  lemma DisconnectedParts(g: Graph, s: Ref)
    requires Core(g) && HasLink(g, s)
    ensures var t := LinkOf(g, s);
            var r := g.locals[s].peer.value;
            var x := g.transports[t];
            var h := Disconnected(g, s);
            && Only(g, h, s) && h.remotes == g.remotes - {r}
            && h.transports == g.transports[t := x.(disconnects := Without(x.disconnects, OfSocket(r)))]
            && Falls(g, h, s)
  {
    hide Core, Only, Retire, Unlink, Without, Spec.CloseLocked, Marked;
    var m := Marked(g, s);
    MarkedCore(g, s);
    CoreIsWired(m);
    LinkExists(m, s);
    LinkIsActive(m, s);
    UnlinkRetireParts(m, s);
    UnlinkAwake(m, s);
    OnlyTrans(g, m, Disconnected(g, s), s);
  }

  lemma UnlinkAwake(g: Graph, s: Ref)
    requires HasLink(g, s) && !g.locals[s].awaiting
    ensures s in Unlink(g, s).locals && !Unlink(g, s).locals[s].awaiting && !HasLink(Unlink(g, s), s)
  {
    hide Without;
  }

  lemma DisconnectedAway(g: Graph, s: Ref)
    requires Core(g) && HasLink(g, s)
    ensures var t := LinkOf(g, s);
            var h := Disconnected(g, s);
            && Core(h) && Away(g, h, t)
            && h.transports[t].disconnects == Without(g.transports[t].disconnects, OfSocket(g.locals[s].peer.value))
  {
    hide Core, Disconnected, Without, View, Spec.Lost, SameFront, Only, Away, Falls;
    CoreIsWired(g);
    LinkExists(g, s);
    DisconnectedCore(g, s);
    FreshPast(g, s);
    DisconnectedParts(g, s);
    OneAway(g, Disconnected(g, s), s);
  }

  /** One socket of the transport goes, with its link. */
  lemma OneAway(g: Graph, h: Graph, s: Ref)
    requires HasLink(g, s) && g.remotes[g.locals[s].peer.value].peer == s && s !in g.past
    requires Only(g, h, s) && Falls(g, h, s) && h.remotes == g.remotes - {g.locals[s].peer.value}
    requires var t := LinkOf(g, s);
             h.transports == g.transports[t := g.transports[t].(disconnects := h.transports[t].disconnects)]
    ensures Away(g, h, LinkOf(g, s))
  {
    hide View, Spec.Lost, SameFront;
    OneOthers(g, h, s);
    hide OthersStand;
    assert OnLink(g, s, LinkOf(g, s));
  }

  lemma OneOthers(g: Graph, h: Graph, s: Ref)
    requires HasLink(g, s) && Only(g, h, s) && h.remotes == g.remotes - {g.locals[s].peer.value}
    requires var t := LinkOf(g, s);
             h.transports == g.transports[t := g.transports[t].(disconnects := h.transports[t].disconnects)]
    ensures OthersStand(g, h, LinkOf(g, s))
  {
    hide SameFront;
  }

  lemma FreshPast(g: Graph, s: Ref)
    requires Core(g) && s in g.locals
    ensures s !in g.past
  {
    hide Listed, Linked, Sessions, Forwarded, Backed;
  }

  lemma AwayTrans(g: Graph, h: Graph, k: Graph, t: Ref)
    requires Away(g, h, t) && Away(h, k, t)
    ensures Away(g, k, t)
  {
    hide OthersStand, Stands, Falls, OnLink;
    OthersStandTrans(g, h, k, t);
    forall s | s in g.locals ensures Stands(g, k, s) || (OnLink(g, s, t) && Falls(g, k, s)) {
      StandsTrans(g, h, k, s, t);
    }
  }

  lemma OthersStandTrans(g: Graph, h: Graph, k: Graph, t: Ref)
    requires OthersStand(g, h, t) && OthersStand(h, k, t)
    ensures OthersStand(g, k, t)
  {
  }

  lemma StandsRemotes(g: Graph, h: Graph, t: Ref)
    requires OthersStand(g, h, t)
    ensures h.transports.Keys == g.transports.Keys
    ensures forall r :: r in h.remotes ==> r in g.remotes && h.remotes[r] == g.remotes[r]
  {
  }

  lemma StandsTrans(g: Graph, h: Graph, k: Graph, s: Ref, t: Ref)
    requires Away(g, h, t) && Away(h, k, t) && s in g.locals
    ensures Stands(g, k, s) || (OnLink(g, s, t) && Falls(g, k, s))
  {
    hide SameFront, OthersStand;
    StandsRemotes(g, h, t);
    if Stands(g, h, s) {
      assert Stands(h, k, s) || (OnLink(h, s, t) && Falls(h, k, s));
    } else if s in h.locals {
      assert Stands(h, k, s);
    } else {
      assert s in h.past;
    }
  }

  // ---- dropping a forward ----

  /** Every entry left on a disconnect list still has its forward. */
  lemma DropForwardBacked(g: Graph, l: Listener, t: Ref, n: string)
    requires Forwarded(g) && l in g.listeners
    requires var h := DropForward(g, l.localName); t in h.transports && OfForward(n) in h.transports[t].disconnects
    requires Lookup(g.listeners, l.localName) == Some(l)
    ensures exists m :: m in DropForward(g, l.localName).listeners && m.localName == n && m.transport == Some(t)
  {
    hide Without, Lookup;
    var m :| m in g.listeners && m.localName == n && m.transport == Some(t);
    assert m in DropForward(g, l.localName).listeners;
  }

  lemma DropForwardForwarded(g: Graph, name: string)
    requires Forwarded(g)
    ensures Forwarded(DropForward(g, name))
  {
    hide Without, Lookup;
    var h := DropForward(g, name);
    match Lookup(g.listeners, name)
    case None =>
    case Some(l) =>
      WithoutNames(g.listeners, l);
      assert Named(h.listeners);
      forall t, n | t in h.transports && OfForward(n) in h.transports[t].disconnects
        ensures exists m :: m in h.listeners && m.localName == n && m.transport == Some(t)
      {
        DropForwardBacked(g, l, t, n);
      }
  }

  ghost predicate Named(ls: seq<Listener>) {
    forall i, j :: 0 <= i < j < |ls| ==> ls[i].localName != ls[j].localName
  }

  lemma {:induction false} WithoutNames(ls: seq<Listener>, l: Listener)
    requires Named(ls)
    ensures Named(Without(ls, l))
  {
    if ls != [] {
      assert Named(ls[1..]);
      WithoutNames(ls[1..], l);
      var rest := Without(ls[1..], l);
      assert forall m :: m in rest ==> m in ls[1..];
      assert forall m :: m in ls[1..] ==> m.localName != ls[0].localName;
    }
  }

  lemma DropForwardSessions(g: Graph, name: string)
    requires Sessions(g)
    ensures Sessions(DropForward(g, name))
  {
    var h := DropForward(g, name);
    hide Without, Lookup;
    forall t | t in h.transports ensures TransportOk(h, t) {
      assert TransportOk(g, t);
      WithoutNoDup(g.transports[t].disconnects, OfForward(name));
    }
  }

  lemma DropForwardLinked(g: Graph, name: string)
    requires Linked(g)
    ensures Linked(DropForward(g, name))
  {
    var h := DropForward(g, name);
    hide Without, Lookup;
    forall r | r in h.remotes ensures RemoteOk(h, r) {
      assert RemoteOk(g, r);
    }
  }

  lemma DropForwardListed(g: Graph, name: string)
    requires Listed(g)
    ensures Listed(DropForward(g, name))
  {
    hide Listed, Without, Lookup;
    ListsFrame(g, DropForward(g, name));
  }

  /** The lists of sockets do not depend on transports and listeners. */
  lemma ListsFrame(g: Graph, h: Graph)
    requires Listed(g) && h.active == g.active && h.closing == g.closing && h.locals == g.locals
    requires h.remotes == g.remotes
    ensures Listed(h)
  {
    assert forall s :: s in g.active ==> ActiveOk(g, s) && ActiveOk(h, s);
    assert forall s :: s in g.closing ==> ClosingOk(g, s) && ClosingOk(h, s);
  }

  lemma DropForwardCore(g: Graph, name: string)
    requires Core(g)
    ensures Core(DropForward(g, name))
  {
    hide Listed, Linked, Sessions, Forwarded, Without, Lookup;
    DropForwardListed(g, name);
    DropForwardLinked(g, name);
    DropForwardSessions(g, name);
    DropForwardForwarded(g, name);
  }

  lemma DropForwardAway(g: Graph, l: Listener, t: Ref)
    requires Lookup(g.listeners, l.localName) == Some(l) && l.transport == Some(t) && t in g.transports
    ensures var h := DropForward(g, l.localName);
            && Away(g, h, t)
            && h.transports[t].disconnects == Without(g.transports[t].disconnects, OfForward(l.localName))
  {
    hide Without, Lookup;
  }

  // ---- the whole list ----

  /** The callback at the head of a transport's list takes exactly itself off. */
  lemma CallHead(g: Graph, t: Ref)
    requires Core(g) && t in g.transports && g.transports[t].disconnects != []
    ensures var ds := g.transports[t].disconnects;
            var h := CallDisconnect(g, ds[0]);
            Core(h) && Away(g, h, t) && t in h.transports && h.transports[t].disconnects == ds[1..]
  {
    var ds := g.transports[t].disconnects;
    assert NoDup(ds) && ds[0] in ds by {
      assert TransportOk(g, t);
    }
    WithoutHead(ds);
    match ds[0]
    case OfSocket(r) =>
      assert r in g.remotes && g.remotes[r].transport == t && RemoteOk(g, r) by {
        assert TransportOk(g, t);
      }
      LinkExists(g, g.remotes[r].peer);
      hide Core, Away, Without, Disconnected;
      DisconnectedAway(g, g.remotes[r].peer);
    case OfForward(name) =>
      var l :| l in g.listeners && l.localName == name && l.transport == Some(t);
      LookupUnique(g, l);
      DropForwardCore(g, name);
      hide Core, Away, Without, DropForward;
      DropForwardAway(g, l, t);
  }

  lemma LookupUnique(g: Graph, l: Listener)
    requires Forwarded(g) && l in g.listeners
    ensures Lookup(g.listeners, l.localName) == Some(l)
  {
  }

  /**
   Running a transport's disconnect list empties it: all its streams and forwards are gone, and
   everything that belongs to another transport is untouched.
   */
  lemma {:induction false} RunAllDoes(g: Graph, t: Ref, ds: seq<Disconnect>)
    requires Core(g) && t in g.transports && g.transports[t].disconnects == ds
    ensures var h := RunAll(g, ds);
            Core(h) && Away(g, h, t) && t in h.transports && h.transports[t].disconnects == []
    decreases |ds|
  {
    hide Core, CallDisconnect;
    if ds != [] {
      hide Away;
      CallHead(g, t);
      var h := CallDisconnect(g, ds[0]);
      RunAllDoes(h, t, ds[1..]);
      AwayTrans(g, h, RunAll(h, ds[1..]), t);
    }
  }

  // ---- sessions ----

  function SetState(g: Graph, t: Ref, state: ConnState, online: bool): Graph
    requires t in g.transports
  {
    g.(transports := g.transports[t := g.transports[t].(state := state, online := online)])
  }

  /** connection_state = CS_OFFLINE and handle_offline. */
  function GoOffline(g: Graph, t: Ref): Graph
    requires t in g.transports
  {
    RunAll(SetState(g, t, Offline, false), g.transports[t].disconnects)
  }

  /** The connection type a banner announces: its first field. */
  function BannerState(banner: string): (s: ConnState)
    ensures s != Offline && s != NoPerm && s != Unauthorized
  {
    var kind := FirstField(banner);
    if kind == "bootloader" then Bootloader
    else if kind == "device" then Device
    else if kind == "recovery" then Recovery
    else if kind == "sideload" then Sideload
    else HostMode
  }

  function FirstField(s: string): string {
    if s == [] || s[0] == ':' then [] else [s[0]] + FirstField(s[1..])
  }

  lemma {:induction false} FirstFieldOf(kind: string, rest: string)
    requires ':' !in kind && (rest == "" || rest[0] == ':')
    ensures FirstField(kind + rest) == kind
  {
    if kind == "" {
      assert kind + rest == rest;
    } else {
      assert (kind + rest)[1..] == kind[1..] + rest;
      FirstFieldOf(kind[1..], rest);
    }
  }

  /** A banner is read up to its first colon; any type but these four is taken for a host. */
  lemma BannerMeans(kind: string, rest: string)
    requires ':' !in kind && (rest == "" || rest[0] == ':')
    ensures BannerState(kind + rest) == Bootloader <==> kind == "bootloader"
    ensures BannerState(kind + rest) == Device <==> kind == "device"
    ensures BannerState(kind + rest) == Recovery <==> kind == "recovery"
    ensures BannerState(kind + rest) == Sideload <==> kind == "sideload"
    ensures BannerState(kind + rest) == HostMode <==>
              kind != "bootloader" && kind != "device" && kind != "recovery" && kind != "sideload"
  {
    hide FirstField;
    FirstFieldOf(kind, rest);
  }

  function OnSync(g: Graph, t: Ref, arg0: nat, arg1: nat): Graph
    requires t in g.transports
  {
    if arg0 != 0 then SendOn(SendOn(g, t, Sync(arg0, arg1)), t, Cnxn("host::"))
    else
      var h := GoOffline(g, t);
      if t in h.transports then SendOn(h, t, Sync(arg0, arg1)) else h
  }

  function OnCnxn(g: Graph, t: Ref, banner: string): Graph
    requires t in g.transports
  {
    var h := if g.transports[t].state != Offline then GoOffline(g, t) else g;
    if t in h.transports then SetState(h, t, BannerState(banner), true) else h
  }

  /** A token is answered with a signature, or with the public key when no private key is left. */
  function OnAuth(g: Graph, t: Ref, kind: nat, reply: Option<Wire>): Graph
    requires t in g.transports
  {
    if kind != 1 then g
    else
      var h := SetState(g, t, Unauthorized, g.transports[t].online);
      if reply.Some? then SendOn(h, t, reply.value) else h
  }

  function OnHdsk(g: Graph, t: Ref, kind: nat): Graph
    requires t in g.transports
  {
    if kind == 1 then SendOn(g, t, Hdsk(2, "paxadb")) else g
  }

  lemma SetStateCore(g: Graph, t: Ref, state: ConnState, online: bool)
    requires Core(g) && t in g.transports
    ensures Core(SetState(g, t, state, online))
  {
    hide Wired, Backed;
    WiredSame(g, SetState(g, t, state, online));
  }

  /**
   Everything that belonged to transport t is gone, and nothing else has changed: the streams of
   t were closed without a CLOSE, its forwards dropped, and its list is empty.
   */
  ghost predicate Purged(g: Graph, h: Graph, t: Ref) {
    && SameFront(g, h)
    && (forall u :: u in g.transports && u != t ==> h.transports[u] == g.transports[u])
    && t in h.transports && h.transports[t].disconnects == []
    && (forall s :: s in g.locals && !OnLink(g, s, t) ==> s in h.locals && h.locals[s] == g.locals[s])
    && (forall s :: s in g.locals && OnLink(g, s, t) ==> View(h, s) == Spec.Lost(View(g, s)))
    && (forall r :: r in h.remotes <==> r in g.remotes && g.remotes[r].transport != t)
    && (forall l :: l in h.listeners <==> l in g.listeners && l.transport != Some(t))
  }

  /** With its list empty, a transport owns no stream and no forward. */
  lemma NothingLeft(h: Graph, t: Ref)
    requires Core(h) && t in h.transports && h.transports[t].disconnects == []
    ensures forall r :: r in h.remotes ==> h.remotes[r].transport != t
    ensures forall l :: l in h.listeners ==> l.transport != Some(t)
    ensures forall s :: s in h.locals ==> !OnLink(h, s, t)
  {
    assert forall r :: r in h.remotes ==> RemoteOk(h, r);
    hide Listed, Sessions, Ids;
  }

  lemma CoreIsWired(g: Graph)
    requires Core(g)
    ensures Wired(g)
  {
  }

  lemma AwayPurges(g: Graph, h: Graph, t: Ref)
    requires Away(g, h, t) && Core(h) && t in h.transports && h.transports[t].disconnects == []
    ensures Purged(g, h, t)
  {
    hide Core, View, Spec.Lost, SameFront;
    NothingLeft(h, t);
    CoreIsWired(h);
    StandsRemotes(g, h, t);
    forall s | s in g.locals && OnLink(g, s, t) ensures Falls(g, h, s) {
      if Stands(g, h, s) {
        LinkExists(h, s);
      }
    }
  }

  lemma SetStateViews(g: Graph, t: Ref, state: ConnState, online: bool, s: Ref)
    requires t in g.transports
    ensures View(SetState(g, t, state, online), s) == View(g, s)
    ensures OnLink(SetState(g, t, state, online), s, t) == OnLink(g, s, t)
  {
  }

  lemma SetStateFirst(g: Graph, h: Graph, t: Ref, state: ConnState, online: bool)
    requires t in g.transports && Purged(SetState(g, t, state, online), h, t)
    ensures Purged(g, h, t)
  {
    forall s ensures View(SetState(g, t, state, online), s) == View(g, s)
                     && OnLink(SetState(g, t, state, online), s, t) == OnLink(g, s, t) {
      SetStateViews(g, t, state, online, s);
    }
    hide View, OnLink, Spec.CloseLocked;
  }

  lemma OfflinePurges(g: Graph, t: Ref)
    requires Valid(g) && t in g.transports
    ensures var h := GoOffline(g, t);
            && Valid(h) && Purged(g, h, t)
            && h.transports[t] == g.transports[t].(state := Offline, online := false, disconnects := [])
  {
    var e := SetState(g, t, Offline, false);
    var ds := g.transports[t].disconnects;
    SetStateCore(g, t, Offline, false);
    hide Core, RunAll;
    RunAllDoes(e, t, ds);
    var h := RunAll(e, ds);
    AwayPurges(e, h, t);
    SetStateFirst(g, h, t, Offline, false);
    hide Purged;
  }

  /** Sending and changing the state of t leave Purged alone. */
  lemma PurgedThen(g: Graph, h: Graph, k: Graph, t: Ref)
    requires Purged(g, h, t) && t in h.transports
    requires k == h.(transports := k.transports) && SameFront(h, k)
    requires forall u :: u in h.transports && u != t ==> k.transports[u] == h.transports[u]
    requires k.transports[t].disconnects == []
    ensures Purged(g, k, t)
  {
    assert forall s :: View(k, s) == View(h, s);
    hide View, Spec.Lost;
  }

  /** SYNC(0): the transport is offline and has lost everything; the others have lost nothing. */
  lemma SyncPurges(g: Graph, t: Ref, token: nat)
    requires Valid(g) && t in g.transports
    ensures var h := OnSync(g, t, 0, token);
            && Valid(h) && Purged(g, h, t)
            && h.transports[t] ==
               Transport(Offline, false, [], g.transports[t].sent + [Sync(0, token)], g.transports[t].tenure)
  {
    hide Valid, GoOffline, Only;
    OfflinePurges(g, t);
    var o := GoOffline(g, t);
    SendOnValid(o, t, Sync(0, token), 0);
    PurgedThen(g, o, OnSync(g, t, 0, token), t);
  }

  lemma NothingOwned(g: Graph, t: Ref)
    requires Valid(g) && t in g.transports && g.transports[t].disconnects == []
    ensures Purged(g, g, t)
  {
    NothingLeft(g, t);
    hide Core;
  }

  lemma OfflineOwnsNothing(g: Graph, t: Ref)
    requires Valid(g) && t in g.transports && g.transports[t].state == Offline
    ensures g.transports[t].disconnects == []
  {
    hide Core;
    assert SessionOk(g.transports[t]);
  }

  lemma PurgedHas(g: Graph, h: Graph, t: Ref)
    requires Purged(g, h, t)
    ensures t in h.transports && h.transports[t].disconnects == []
  {
    hide SameFront, View, Spec.Lost;
  }

  lemma StateFront(g: Graph, t: Ref, state: ConnState, online: bool)
    requires t in g.transports
    ensures SameFront(g, SetState(g, t, state, online))
  {
  }

  lemma SetOnline(g: Graph, t: Ref, state: ConnState)
    requires Valid(g) && t in g.transports && state != Offline && state != NoPerm
    ensures Valid(SetState(g, t, state, true))
  {
    SetStateCore(g, t, state, true);
    hide Core;
  }

  /** CNXN: what the transport owned before is gone; it is online in the state the banner names. */
  lemma CnxnPurges(g: Graph, t: Ref, banner: string)
    requires Valid(g) && t in g.transports
    ensures var h := OnCnxn(g, t, banner);
            && Valid(h) && Purged(g, h, t)
            && h.transports[t] == Transport(BannerState(banner), true, [], g.transports[t].sent, g.transports[t].tenure)
  {
    hide GoOffline, BannerState, Valid, Purged, SameFront;
    var o := if g.transports[t].state != Offline then GoOffline(g, t) else g;
    if g.transports[t].state != Offline {
      OfflinePurges(g, t);
    } else {
      OfflineOwnsNothing(g, t);
      NothingOwned(g, t);
    }
    PurgedHas(g, o, t);
    SetOnline(o, t, BannerState(banner));
    StateFront(o, t, BannerState(banner), true);
    PurgedThen(g, o, OnCnxn(g, t, banner), t);
  }

  /** Nothing changes but the state of transport t and what is sent on it. */
  ghost predicate SameButState(g: Graph, h: Graph, t: Ref) {
    && h == g.(transports := h.transports) && h.transports.Keys == g.transports.Keys
    && (forall u :: u in g.transports && u != t ==> h.transports[u] == g.transports[u])
    && (t in g.transports ==> h.transports[t].disconnects == g.transports[t].disconnects
                              && h.transports[t].online == g.transports[t].online)
  }

  /**
   AUTH and HDSK, and a SYNC that brings the transport up, leave every stream and forward alone. A token makes the
   device unauthorized and is answered; a handshake request is answered with the magic word.
   */
  lemma AuthKeeps(g: Graph, t: Ref, kind: nat, reply: Option<Wire>)
    requires Valid(g) && t in g.transports
    ensures var h := OnAuth(g, t, kind, reply);
            && Valid(h) && SameButState(g, h, t)
            && h.transports[t].state == (if kind == 1 then Unauthorized else g.transports[t].state)
            && h.transports[t].sent ==
               g.transports[t].sent + (if kind == 1 && reply.Some? then [reply.value] else [])
  {
    hide Valid, Only;
    var h := SetState(g, t, Unauthorized, g.transports[t].online);
    Unauthorize(g, t);
    if reply.Some? {
      SendOnValid(h, t, reply.value, 0);
    }
  }

  lemma Unauthorize(g: Graph, t: Ref)
    requires Valid(g) && t in g.transports
    ensures Valid(SetState(g, t, Unauthorized, g.transports[t].online))
  {
    hide Core;
    SetStateCore(g, t, Unauthorized, g.transports[t].online);
  }

  lemma HandshakeKeeps(g: Graph, t: Ref, kind: nat)
    requires Valid(g) && t in g.transports
    ensures var h := OnHdsk(g, t, kind);
            && Valid(h) && SameButState(g, h, t) && h.transports[t].state == g.transports[t].state
            && h.transports[t].sent == g.transports[t].sent + (if kind == 1 then [Hdsk(2, "paxadb")] else [])
  {
    hide Valid, Only;
    SendOnValid(g, t, Hdsk(2, "paxadb"), 0);
  }

  lemma SyncUpKeeps(g: Graph, t: Ref, arg0: nat, token: nat)
    requires Valid(g) && t in g.transports && arg0 != 0
    ensures var h := OnSync(g, t, arg0, token);
            && Valid(h) && SameButState(g, h, t)
            && h.transports[t].sent == g.transports[t].sent + [Sync(arg0, token), Cnxn("host::")]
  {
    hide Valid, Only;
    SendOnValid(g, t, Sync(arg0, token), 0);
    SendOnValid(SendOn(g, t, Sync(arg0, token)), t, Cnxn("host::"), 0);
  }

  // ---- the input thread's way out ----

  /** The first active socket that waits for transport t or is linked over it. */
  function FirstOn(g: Graph, list: seq<Ref>, t: Ref): (r: Option<Ref>)
    ensures r.Some? ==> r.value in list && r.value in g.locals
    ensures r.Some? ==> g.locals[r.value].transport == Some(t) || OnLink(g, r.value, t)
    ensures r.None? ==> forall s :: s in list && s in g.locals ==> g.locals[s].transport != Some(t) && !OnLink(g, s, t)
  {
    if list == [] then None
    else if list[0] in g.locals && (g.locals[list[0]].transport == Some(t) || OnLink(g, list[0], t)) then Some(list[0])
    else FirstOn(g, list[1..], t)
  }

  /** The walk of close_all_sockets: start again after every socket that is closed. */
  function CloseListed(g: Graph, t: Ref): Graph
    decreases |g.active|
  {
    match FirstOn(g, g.active, t)
    case None => g
    case Some(s) =>
      var h := CloseLocked(g, s, true);
      if |h.active| < |g.active| then CloseListed(h, t) else h
  }

  predicate Chose(k: Option<Choice>, t: Ref) {
    k.Some? && k.value.transport == t
  }

  function Unchosen(clients: map<Ref, Option<Choice>>, t: Ref): map<Ref, Option<Choice>> {
    map c | c in clients && !Chose(clients[c], t) :: clients[c]
  }

  /** close_all_sockets: also the clients whose smart socket has chosen t. */
  function CloseAll(g: Graph, t: Ref): Graph {
    var h := CloseListed(g, t);
    h.(front := h.front.(clients := Unchosen(h.front.clients, t)))
  }

  lemma CloseShrinks(g: Graph, s: Ref, fault: bool)
    requires s in g.locals && s in g.active
    ensures CloseLocked(g, s, fault).active == Without(g.active, s)
    ensures |CloseLocked(g, s, fault).active| < |g.active|
  {
    hide Without;
  }

  predicate Concerns(g: Graph, s: Ref, t: Ref) {
    s in g.locals && (g.locals[s].transport == Some(t) || OnLink(g, s, t))
  }

  /** Closing one socket does not make another one concern t. */
  lemma OthersConcern(g: Graph, h: Graph, s: Ref, u: Ref, t: Ref)
    requires Valid(g) && Only(g, h, s) && u != s && u in g.locals && !Concerns(g, u, t)
    ensures u in h.locals && h.locals[u] == g.locals[u] && !Concerns(h, u, t)
  {
    if g.locals[u].peer.Some? {
      LinkExists(g, u);
    }
    hide Valid;
  }

  /** Afterwards no active socket waits for t or is linked over it, and no other socket has changed. */
  lemma {:induction false} CloseListedDoes(g: Graph, t: Ref)
    requires Valid(g)
    ensures var h := CloseListed(g, t);
            && Valid(h) && SameFront(g, h)
            && (forall s :: s in h.active ==> !Concerns(h, s, t))
            && (forall u :: u in g.locals && !Concerns(g, u, t) ==> u in h.locals && h.locals[u] == g.locals[u])
    decreases |g.active|
  {
    hide Valid, CloseLocked;
    match FirstOn(g, g.active, t)
    case None =>
    case Some(s) =>
      var k := CloseLocked(g, s, true);
      CloseLockedOnline(g, s, true);
      CoreOf(g);
      CloseLockedDoes(g, s, true);
      CloseShrinks(g, s, true);
      CloseListedDoes(k, t);
      forall u | u in g.locals && !Concerns(g, u, t)
        ensures u in CloseListed(g, t).locals && CloseListed(g, t).locals[u] == g.locals[u]
      {
        OthersConcern(g, k, s, u, t);
      }
  }

  /** Who is at the front matters to no socket. */
  lemma FrontFrame(g: Graph, h: Graph)
    requires h == g.(front := h.front)
    ensures Core(g) ==> Core(h)
    ensures Valid(g) ==> Valid(h)
  {
    hide Core;
    FrontCore(g, h);
  }

  lemma FrontCore(g: Graph, h: Graph)
    requires h == g.(front := h.front)
    ensures Core(g) ==> Core(h)
  {
    if Core(g) {
      hide Wired, Backed;
      WiredSame(g, h);
    }
  }

  /**
   Afterwards nothing on the list of sockets has to do with t: no socket waits for it or is linked
   over it, and no client has chosen it. No other socket and no other client has changed.
   */
  lemma CloseAllDoes(g: Graph, t: Ref)
    requires Valid(g)
    ensures var h := CloseAll(g, t);
            && Valid(h)
            && (forall s :: s in h.active ==> !Concerns(h, s, t))
            && (forall u :: u in g.locals && !Concerns(g, u, t) ==> u in h.locals && h.locals[u] == g.locals[u])
            && (forall c :: c in h.front.clients <==> c in g.front.clients && !Chose(g.front.clients[c], t))
            && (forall c :: c in h.front.clients ==> h.front.clients[c] == g.front.clients[c])
            && h.front.born == g.front.born && SameFront(g, h.(front := g.front))
  {
    hide Valid, CloseListed;
    CloseListedDoes(g, t);
    FrontFrame(CloseListed(g, t), CloseAll(g, t));
  }
}
