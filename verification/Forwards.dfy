/**
 The listener list as a map: install_listener, remove_listener, remove_all_listeners and the requests
 that reach them (src/adb.c:748-776, 816-970, 1470-1577).
 */
module Forwards {
  import opened Octets
  import opened Lists
  import opened Graph
  import opened Handlers
  import opened Isolation
  import FrontEnd

  datatype Status = Done | CannotBind | CannotRebind | InternalError

  /** Listeners that are never repurposed. */
  predicate Smart(l: Listener) {
    l.connectTo != "" && l.connectTo[0] == '*'
  }

  // ---- the list as a map ----

  datatype Target = Target(connectTo: string, transport: Option<Ref>)

  function AsMap(ls: seq<Listener>): map<string, Target> {
    if ls == [] then map[]
    else AsMap(ls[1..])[ls[0].localName := Target(ls[0].connectTo, ls[0].transport)]
  }

  function AsTarget(l: Listener): Target {
    Target(l.connectTo, l.transport)
  }

  predicate MapsTo(m: map<string, Target>, l: Listener) {
    l.localName in m && m[l.localName] == AsTarget(l)
  }

  /** With distinct names, the map holds exactly the listeners of the list. */
  lemma {:induction false} MapMembers(ls: seq<Listener>, l: Listener)
    requires Named(ls)
    ensures MapsTo(AsMap(ls), l) <==> l in ls
    ensures l.localName in AsMap(ls) <==> exists k :: k in ls && k.localName == l.localName
  {
    if ls != [] {
      assert Named(ls[1..]);
      MapMembers(ls[1..], l);
      assert forall k :: k in ls[1..] ==> k.localName != ls[0].localName;
    }
  }

  /** A map that holds exactly the listeners of the list is its map. */
  lemma MapFromMembers(ls: seq<Listener>, m: map<string, Target>)
    requires Named(ls) && forall l :: MapsTo(m, l) <==> l in ls
    ensures AsMap(ls) == m
  {
    hide AsMap;
    forall name ensures name in AsMap(ls) <==> name in m {
      MapMembers(ls, Listener(name, "", None));
      if name in m {
        assert MapsTo(m, Listener(name, m[name].connectTo, m[name].transport));
      }
    }
    forall name | name in m ensures AsMap(ls)[name] == m[name] {
      var l := Listener(name, m[name].connectTo, m[name].transport);
      assert MapsTo(m, l);
      MapMembers(ls, l);
    }
  }

  function Replace(ls: seq<Listener>, l: Listener, m: Listener): (r: seq<Listener>)
    ensures |r| == |ls| && forall i :: 0 <= i < |ls| ==> r[i] == if ls[i] == l then m else ls[i]
  {
    seq(|ls|, i requires 0 <= i < |ls| => if ls[i] == l then m else ls[i])
  }

  lemma {:induction false} LookupIn(ls: seq<Listener>, l: Listener)
    requires Named(ls) && l in ls
    ensures Lookup(ls, l.localName) == Some(l)
  {
    if ls[0] != l {
      assert Named(ls[1..]);
      LookupIn(ls[1..], l);
    }
  }

  lemma ReplaceNamed(ls: seq<Listener>, l: Listener, m: Listener)
    requires Named(ls) && m.localName == l.localName
    ensures Named(Replace(ls, l, m))
  {
  }

  // ---- the operations ----

  function AddOn(g: Graph, t: Ref, d: Disconnect): Graph
    requires t in g.transports
  {
    g.(transports := g.transports[t := g.transports[t].(disconnects := g.transports[t].disconnects + [d])])
  }

  function DropOn(g: Graph, t: Ref, d: Disconnect): Graph
    requires t in g.transports
  {
    g.(transports := g.transports[t := g.transports[t].(disconnects := Without(g.transports[t].disconnects, d))])
  }

  /** A new listener, at the end of the list and of its transport's disconnect list. */
  function Added(g: Graph, l: Listener): Graph
    requires l.transport.Some? ==> l.transport.value in g.transports
  {
    var h := g.(listeners := g.listeners + [l]);
    if l.transport.Some? then AddOn(h, l.transport.value, OfForward(l.localName)) else h
  }

  /** An existing forward gets a new target, and moves to the disconnect list of its new transport. */
  function Rebound(g: Graph, l: Listener, connectTo: string, t: Ref): Graph
    requires t in g.transports
  {
    var h := g.(listeners := Replace(g.listeners, l, Listener(l.localName, connectTo, Some(t))));
    if l.transport == Some(t) then h
    else if l.transport.Some? && l.transport.value in g.transports then
      AddOn(DropOn(h, l.transport.value, OfForward(l.localName)), t, OfForward(l.localName))
    else AddOn(h, t, OfForward(l.localName))
  }

  /** install_listener on transport t; `bound` is whether a new name could be bound. */
  function InstallListener(g: Graph, name: string, connectTo: string, t: Ref, noRebind: bool,
                           bound: bool): (r: (Graph, Status))
    requires t in g.transports
  {
    match Lookup(g.listeners, name)
    case None => if bound then (Added(g, Listener(name, connectTo, Some(t))), Done) else (g, CannotBind)
    case Some(l) =>
      if Smart(l) then (g, InternalError)
      else if noRebind then (g, CannotRebind)
      else (Rebound(g, l, connectTo, t), Done)
  }

  /** remove_listener. */
  function RemoveListener(g: Graph, name: string): (r: (Graph, bool)) {
    (DropForward(g, name), Lookup(g.listeners, name).Some?)
  }

  /** remove_all_listeners, over the list it starts with. */
  function RemoveAll(g: Graph, ls: seq<Listener>): Graph
    decreases |ls|
  {
    if ls == [] then g
    else RemoveAll(if Smart(ls[0]) then g else DropForward(g, ls[0].localName), ls[1..])
  }

  // ---- the map ----

  lemma NamesOf(g: Graph)
    requires Forwarded(g)
    ensures Named(g.listeners)
  {
  }

  lemma AllMembers(ls: seq<Listener>)
    requires Named(ls)
    ensures forall l :: MapsTo(AsMap(ls), l) <==> l in ls
    ensures forall l :: l in ls ==> l.localName in AsMap(ls)
  {
    forall l ensures MapsTo(AsMap(ls), l) <==> l in ls {
      MapMembers(ls, l);
    }
  }

  /** The listener behind a name, as list and map have it. */
  lemma LookupMap(ls: seq<Listener>, name: string)
    requires Named(ls)
    ensures match Lookup(ls, name)
            case None => name !in AsMap(ls)
            case Some(l) => l in ls && name in AsMap(ls) && AsMap(ls)[name] == AsTarget(l)
  {
    hide AsMap;
    match Lookup(ls, name)
    case None => MapMembers(ls, Listener(name, "", None));
    case Some(l) => MapMembers(ls, l);
  }

  lemma AddedMap(g: Graph, l: Listener)
    requires Named(g.listeners) && Lookup(g.listeners, l.localName).None?
    requires l.transport.Some? ==> l.transport.value in g.transports
    ensures Named(Added(g, l).listeners)
    ensures AsMap(Added(g, l).listeners) == AsMap(g.listeners)[l.localName := AsTarget(l)]
  {
    hide Lookup, AsMap;
    AllMembers(g.listeners);
    MapFromMembers(g.listeners + [l], AsMap(g.listeners)[l.localName := AsTarget(l)]);
  }

  lemma ReboundMap(g: Graph, l: Listener, connectTo: string, t: Ref)
    requires Named(g.listeners) && l in g.listeners
    requires t in g.transports && (l.transport.Some? ==> l.transport.value in g.transports)
    ensures Named(Rebound(g, l, connectTo, t).listeners)
    ensures AsMap(Rebound(g, l, connectTo, t).listeners) ==
          AsMap(g.listeners)[l.localName := Target(connectTo, Some(t))]
  {
    hide Lookup, AsMap, Without;
    var k := Listener(l.localName, connectTo, Some(t));
    var ls := Replace(g.listeners, l, k);
    ReplaceNamed(g.listeners, l, k);
    AllMembers(g.listeners);
    ReplaceMembers(g.listeners, l, k);
    MapFromMembers(ls, AsMap(g.listeners)[l.localName := Target(connectTo, Some(t))]);
  }

  lemma ReplaceMembers(ls: seq<Listener>, l: Listener, k: Listener)
    requires Named(ls) && l in ls && k.localName == l.localName
    ensures forall x :: x in Replace(ls, l, k) <==> x == k || (x in ls && x.localName != l.localName)
  {
    var r := Replace(ls, l, k);
    var i :| 0 <= i < |ls| && ls[i] == l;
    assert r[i] == k;
    forall x | x in ls && x.localName != l.localName ensures x in r {
      var j :| 0 <= j < |ls| && ls[j] == x;
      assert r[j] == x;
    }
  }

  lemma DroppedMap(g: Graph, name: string)
    requires Named(g.listeners)
    ensures Named(DropForward(g, name).listeners)
    ensures AsMap(DropForward(g, name).listeners) == AsMap(g.listeners) - {name}
  {
    hide AsMap, Without, Lookup;
    LookupMap(g.listeners, name);
    match Lookup(g.listeners, name)
    case None => assert AsMap(g.listeners) - {name} == AsMap(g.listeners);
    case Some(l) =>
      WithoutNames(g.listeners, l);
      AllMembers(g.listeners);
      assert forall x :: x in Without(g.listeners, l) <==> x in g.listeners && x.localName != name;
      MapFromMembers(Without(g.listeners, l), AsMap(g.listeners) - {name});
  }

  /** The entries of smart sockets. */
  function SmartOnly(m: map<string, Target>): map<string, Target> {
    map name | name in m && m[name].connectTo != "" && m[name].connectTo[0] == '*' :: m[name]
  }

  lemma {:induction false} RemoveAllMembers(g: Graph, ls: seq<Listener>)
    requires Named(g.listeners) && forall l :: l in ls ==> l in g.listeners || Lookup(g.listeners, l.localName).None?
    requires Named(ls)
    ensures Named(RemoveAll(g, ls).listeners)
    ensures forall l :: l in RemoveAll(g, ls).listeners <==> l in g.listeners && (Smart(l) || l !in ls)
    decreases |ls|
  {
    hide DropForward, Smart, Lookup;
    if ls != [] {
      var h := if Smart(ls[0]) then g else DropForward(g, ls[0].localName);
      DroppedMembers(g, ls[0]);
      assert Named(ls[1..]);
      forall l | l in ls[1..] ensures l in h.listeners || Lookup(h.listeners, l.localName).None? {
        assert l in ls && l.localName != ls[0].localName;
        LookupSame(g, h, l.localName);
      }
      RemoveAllMembers(h, ls[1..]);
      assert ls[0] !in ls[1..];
    }
  }

  lemma DroppedMembers(g: Graph, l: Listener)
    requires Named(g.listeners) && (l in g.listeners || Lookup(g.listeners, l.localName).None?)
    ensures Named(DropForward(g, l.localName).listeners)
    ensures forall x :: x in DropForward(g, l.localName).listeners <==> x in g.listeners && x != l
    ensures l in g.listeners ==> Lookup(g.listeners, l.localName) == Some(l)
  {
    hide Without;
    if l in g.listeners {
      LookupIn(g.listeners, l);
      WithoutNames(g.listeners, l);
    }
    hide Lookup;
  }

  lemma LookupSame(g: Graph, h: Graph, name: string)
    requires forall x :: x in h.listeners ==> x in g.listeners
    ensures Lookup(g.listeners, name).None? ==> Lookup(h.listeners, name).None?
  {
    hide Lookup;
  }

  /** killforward-all keeps the smart sockets and nothing else. */
  lemma RemoveAllMap(g: Graph)
    requires Forwarded(g)
    ensures AsMap(RemoveAll(g, g.listeners).listeners) == SmartOnly(AsMap(g.listeners))
  {
    hide AsMap, RemoveAll, Forwarded;
    NamesOf(g);
    RemoveAllMembers(g, g.listeners);
    AllMembers(g.listeners);
    MapFromMembers(RemoveAll(g, g.listeners).listeners, SmartOnly(AsMap(g.listeners)));
  }

  // ---- the graph ----

  /** Only listeners, and forwards on disconnect lists, differ. */
  ghost predicate SameSockets(g: Graph, h: Graph) {
    && h == g.(transports := h.transports, listeners := h.listeners) && h.transports.Keys == g.transports.Keys
    && forall t :: t in g.transports ==>
         && NoDup(h.transports[t].disconnects)
         && h.transports[t] == g.transports[t].(disconnects := h.transports[t].disconnects)
         && forall r :: OfSocket(r) in h.transports[t].disconnects <==> OfSocket(r) in g.transports[t].disconnects
  }

  lemma SocketsLinked(g: Graph, h: Graph)
    requires Linked(g) && SameSockets(g, h)
    ensures Linked(h)
  {
    forall r | r in h.remotes ensures RemoteOk(h, r) {
      assert RemoteOk(g, r);
    }
  }

  lemma SocketsSessions(g: Graph, h: Graph)
    requires Sessions(g) && SameSockets(g, h)
    ensures Sessions(h)
  {
    forall t | t in h.transports ensures TransportOk(h, t) {
      assert TransportOk(g, t);
    }
  }

  lemma SocketsStand(g: Graph, h: Graph)
    requires Core(g) && SameSockets(g, h) && Forwarded(h)
    ensures Core(h)
  {
    hide Listed, Linked, Sessions, Forwarded;
    ListsFrame(g, h);
    SocketsLinked(g, h);
    SocketsSessions(g, h);
  }

  /** A name that no listener of t has is not on the disconnect list of t. */
  lemma NotOnList(g: Graph, t: Ref, name: string)
    requires Core(g) && t in g.transports
    requires forall l :: l in g.listeners && l.localName == name ==> l.transport != Some(t)
    ensures OfForward(name) !in g.transports[t].disconnects && NoDup(g.transports[t].disconnects)
  {
    assert TransportOk(g, t);
    hide Listed, Linked, Ids, Backed;
  }

  lemma AddOnSockets(g: Graph, t: Ref, name: string)
    requires Sessions(g) && t in g.transports && OfForward(name) !in g.transports[t].disconnects
    ensures SameSockets(g, AddOn(g, t, OfForward(name)))
  {
    assert forall u :: u in g.transports ==> TransportOk(g, u);
    AppendNoDup(g.transports[t].disconnects, OfForward(name));
    hide NoDup;
  }

  lemma AddedForwarded(g: Graph, l: Listener)
    requires Forwarded(g) && Lookup(g.listeners, l.localName).None? && l.transport.Some?
    requires l.transport.value in g.transports
    ensures Forwarded(Added(g, l))
  {
    hide Lookup;
    var h := Added(g, l);
    var t := l.transport.value;
    forall u, name | u in h.transports && OfForward(name) in h.transports[u].disconnects
      ensures exists k :: k in h.listeners && k.localName == name && k.transport == Some(u)
    {
      if u == t && name == l.localName {
        assert l in h.listeners;
      } else {
        var k :| k in g.listeners && k.localName == name && k.transport == Some(u);
        assert k in h.listeners;
      }
    }
  }

  lemma AddedCore(g: Graph, l: Listener)
    requires Core(g) && Lookup(g.listeners, l.localName).None? && l.transport.Some? && l.transport.value in g.transports
    ensures Core(Added(g, l)) && SameSockets(g, Added(g, l))
  {
    hide Listed, Linked, Ids, Sessions, Forwarded, Backed, Lookup, SameSockets;
    NotOnList(g, l.transport.value, l.localName);
    AddOnSockets(g, l.transport.value, l.localName);
    AddedForwarded(g, l);
    SameButNames(g, AddOn(g, l.transport.value, OfForward(l.localName)), Added(g, l));
    SocketsStand(g, Added(g, l));
  }

  lemma SameButNames(g: Graph, h: Graph, k: Graph)
    requires SameSockets(g, h) && k == h.(listeners := k.listeners)
    ensures SameSockets(g, k)
  {
  }

  /** A forward that moves between transports is on the new list and off the old one. */
  lemma MovedForwarded(g: Graph, l: Listener, connectTo: string, t: Ref)
    requires Forwarded(g) && l in g.listeners && t in g.transports && l.transport.Some?
    requires l.transport.value in g.transports
    ensures Forwarded(Rebound(g, l, connectTo, t))
  {
    hide Rebound;
    var h := Rebound(g, l, connectTo, t);
    NamesOf(g);
    ReboundMap(g, l, connectTo, t);
    forall k | k in h.listeners && k.transport.Some?
      ensures k.transport.value in h.transports && OfForward(k.localName) in h.transports[k.transport.value].disconnects
    {
      MovedOnList(g, l, connectTo, t, k);
    }
    forall u, name | u in h.transports && OfForward(name) in h.transports[u].disconnects
      ensures exists k :: k in h.listeners && k.localName == name && k.transport == Some(u)
    {
      MovedBacked(g, l, connectTo, t, u, name);
    }
  }

  /** Which forwards are on which disconnect list after a rebinding. */
  lemma ReboundLists(g: Graph, l: Listener, connectTo: string, t: Ref)
    requires t in g.transports && l.transport.Some? && l.transport.value in g.transports
    ensures var h := Rebound(g, l, connectTo, t);
            && h.listeners == Replace(g.listeners, l, Listener(l.localName, connectTo, Some(t)))
            && h.transports.Keys == g.transports.Keys
            && forall u, n :: u in g.transports ==>
                 (OfForward(n) in h.transports[u].disconnects <==>
                    if l.transport == Some(t) || n != l.localName then OfForward(n) in g.transports[u].disconnects
                    else u == t || (u != l.transport.value && OfForward(n) in g.transports[u].disconnects))
  {
    hide Without, Replace;
  }

  lemma MovedOnList(g: Graph, l: Listener, connectTo: string, t: Ref, k: Listener)
    requires Forwarded(g) && l in g.listeners && t in g.transports && l.transport.Some?
    requires l.transport.value in g.transports
    requires k in Rebound(g, l, connectTo, t).listeners && k.transport.Some?
    ensures var h := Rebound(g, l, connectTo, t);
            k.transport.value in h.transports && OfForward(k.localName) in h.transports[k.transport.value].disconnects
  {
    hide Replace, Rebound;
    ReboundLists(g, l, connectTo, t);
    ReplaceMembers(g.listeners, l, Listener(l.localName, connectTo, Some(t)));
  }

  lemma MovedBacked(g: Graph, l: Listener, connectTo: string, t: Ref, u: Ref, name: string)
    requires Forwarded(g) && l in g.listeners && t in g.transports && l.transport.Some?
    requires l.transport.value in g.transports
    requires var h := Rebound(g, l, connectTo, t); u in h.transports && OfForward(name) in h.transports[u].disconnects
    ensures exists k :: k in Rebound(g, l, connectTo, t).listeners && k.localName == name && k.transport == Some(u)
  {
    hide Replace, Rebound, Lookup, Named;
    NamesOf(g);
    ReboundLists(g, l, connectTo, t);
    var m := Listener(l.localName, connectTo, Some(t));
    ReplaceMembers(g.listeners, l, m);
    if name == l.localName && u == t {
      assert m in Rebound(g, l, connectTo, t).listeners;
    } else {
      var k :| k in g.listeners && k.localName == name && k.transport == Some(u);
      if name == l.localName {
        LookupIn(g.listeners, k);
        LookupIn(g.listeners, l);
      }
      assert k in Rebound(g, l, connectTo, t).listeners;
    }
  }

  lemma ReboundCore(g: Graph, l: Listener, connectTo: string, t: Ref)
    requires Core(g) && l in g.listeners && t in g.transports && l.transport.Some? && l.transport.value in g.transports
    ensures Core(Rebound(g, l, connectTo, t)) && SameSockets(g, Rebound(g, l, connectTo, t))
  {
    hide Listed, Linked, Ids, Sessions, Forwarded, Backed, SameSockets, Without, AddOn, DropOn;
    var u := l.transport.value;
    MovedForwarded(g, l, connectTo, t);
    SocketsSame(g);
    if u == t {
      SameButNames(g, g, Rebound(g, l, connectTo, t));
    } else {
      OnlyHere(g, l, t);
      MovedSockets(g, u, t, l.localName);
      MovedParts(g, l, connectTo, t);
      SameButNames(g, AddOn(DropOn(g, u, OfForward(l.localName)), t, OfForward(l.localName)),
                   Rebound(g, l, connectTo, t));
    }
    SocketsStand(g, Rebound(g, l, connectTo, t));
  }

  lemma MovedParts(g: Graph, l: Listener, connectTo: string, t: Ref)
    requires t in g.transports && l.transport.Some? && l.transport.value in g.transports && l.transport != Some(t)
    ensures t in DropOn(g, l.transport.value, OfForward(l.localName)).transports
    ensures var k := AddOn(DropOn(g, l.transport.value, OfForward(l.localName)), t, OfForward(l.localName));
            Rebound(g, l, connectTo, t) == k.(listeners := Rebound(g, l, connectTo, t).listeners)
  {
  }

  lemma SocketsSame(g: Graph)
    requires Core(g)
    ensures SameSockets(g, g)
  {
    assert forall u :: u in g.transports ==> TransportOk(g, u);
    hide NoDup;
  }

  lemma OnlyHere(g: Graph, l: Listener, t: Ref)
    requires Core(g) && l in g.listeners && l.transport != Some(t) && t in g.transports
    ensures OfForward(l.localName) !in g.transports[t].disconnects
  {
    hide Listed, Linked, Ids, Backed;
    NamesOf(g);
    forall k | k in g.listeners && k.localName == l.localName ensures k.transport != Some(t) {
      LookupIn(g.listeners, k);
      LookupIn(g.listeners, l);
    }
    NotOnList(g, t, l.localName);
  }

  lemma MovedSockets(g: Graph, u: Ref, t: Ref, name: string)
    requires Sessions(g) && u in g.transports && t in g.transports && u != t
    requires OfForward(name) !in g.transports[t].disconnects
    ensures SameSockets(g, AddOn(DropOn(g, u, OfForward(name)), t, OfForward(name)))
  {
    hide NoDup, Without;
    assert forall v :: v in g.transports ==> TransportOk(g, v);
    WithoutNoDup(g.transports[u].disconnects, OfForward(name));
    AppendNoDup(g.transports[t].disconnects, OfForward(name));
  }

  /** Adding a forward to a transport that is online. */
  lemma SocketsOnline(g: Graph, h: Graph, t: Ref)
    requires Online(g) && SameSockets(g, h) && t in g.transports && g.transports[t].online
    requires forall u :: u in g.transports && u != t && h.transports[u].disconnects != [] ==>
               g.transports[u].disconnects != []
    ensures Online(h)
  {
  }

  ghost predicate HasForwards(g: Graph) {
    forall l :: l in g.listeners ==> (l.transport.None? <==> Smart(l))
  }

  lemma OwnerOf(g: Graph, l: Listener)
    requires Core(g) && HasForwards(g) && l in g.listeners && !Smart(l)
    ensures l.transport.Some? && l.transport.value in g.transports
  {
    hide Listed, Linked, Ids, Sessions, Backed, Smart;
  }

  /**
   forward is put and norebind is put-if-absent on the map from local names; a smart socket is never
   repurposed, an error changes nothing, and the graph stays valid with every forward on exactly the
   disconnect list of its current transport.
   */
  lemma InstallIsPut(g: Graph, name: string, connectTo: string, t: Ref, noRebind: bool, bound: bool)
    requires Valid(g) && HasForwards(g) && t in g.transports && g.transports[t].online
    requires connectTo != "" && connectTo[0] != '*'
    ensures var (h, status) := InstallListener(g, name, connectTo, t, noRebind, bound);
            var m := AsMap(g.listeners);
            && Valid(h) && HasForwards(h)
            && (status.Done? <==> if name in m then !noRebind && m[name].transport.Some? else bound)
            && (status.Done? ==> AsMap(h.listeners) == m[name := Target(connectTo, Some(t))] && SameSockets(g, h))
            && (!status.Done? ==> h == g)
            && (status.CannotBind? <==> name !in m && !bound)
            && (status.CannotRebind? <==> name in m && m[name].transport.Some? && noRebind)
  {
    hide Core, Online, Lookup, AsMap, SameSockets, Added, Rebound, Forwarded;
    CoreNames(g);
    LookupMap(g.listeners, name);
    match Lookup(g.listeners, name)
    case None =>
      var l := Listener(name, connectTo, Some(t));
      AddedCore(g, l);
      AddedMap(g, l);
      AddedOnline(g, l);
    case Some(l) =>
      if !Smart(l) && !noRebind {
        OwnerOf(g, l);
        ReboundCore(g, l, connectTo, t);
        ReboundMap(g, l, connectTo, t);
        ReboundOnline(g, l, connectTo, t);
      }
  }

  lemma CoreNames(g: Graph)
    requires Core(g)
    ensures Named(g.listeners) && Forwarded(g)
  {
    hide Listed, Linked, Ids, Sessions, Backed;
  }

  lemma AddedOnline(g: Graph, l: Listener)
    requires Online(g) && l.transport.Some? && l.transport.value in g.transports && SameSockets(g, Added(g, l))
    requires g.transports[l.transport.value].online && HasForwards(g) && !Smart(l)
    ensures Online(Added(g, l)) && HasForwards(Added(g, l))
  {
    hide SameSockets, Online;
    SocketsOnline(g, Added(g, l), l.transport.value);
  }

  lemma ReboundOnline(g: Graph, l: Listener, connectTo: string, t: Ref)
    requires Online(g) && l.transport.Some? && l.transport.value in g.transports && t in g.transports
    requires SameSockets(g, Rebound(g, l, connectTo, t)) && g.transports[t].online && HasForwards(g)
    requires connectTo != "" && connectTo[0] != '*'
    ensures Online(Rebound(g, l, connectTo, t)) && HasForwards(Rebound(g, l, connectTo, t))
  {
    hide SameSockets, Online, Without;
    SocketsOnline(g, Rebound(g, l, connectTo, t), t);
  }

  /** killforward removes a name, whatever it stands for, and says whether it was there. */
  lemma RemoveIsDelete(g: Graph, name: string)
    requires Valid(g) && HasForwards(g)
    ensures var (h, found) := RemoveListener(g, name);
            && Valid(h) && HasForwards(h) && AsMap(h.listeners) == AsMap(g.listeners) - {name}
            && (found <==> name in AsMap(g.listeners)) && (!found ==> h == g)
  {
    hide Core, Online, Lookup, AsMap, Forwarded, DropForward;
    DropAbsent(g, name);
    CoreNames(g);
    LookupMap(g.listeners, name);
    DroppedMap(g, name);
    DropForwardCore(g, name);
    DroppedOnline(g, name);
  }

  lemma DropAbsent(g: Graph, name: string)
    ensures Lookup(g.listeners, name).None? ==> DropForward(g, name) == g
  {
    hide Without, Lookup;
  }

  /**
   The server's own listener, which killforward-all never takes, is taken by killforward exactly
   when that is given its name.
   */
  lemma SmartRemoved(g: Graph, l: Listener, name: string)
    requires Forwarded(g) && l in g.listeners && Smart(l)
    ensures l !in RemoveListener(g, name).0.listeners <==> name == l.localName
    ensures l in RemoveAll(g, g.listeners).listeners
  {
    hide Without, Lookup, RemoveAll;
    NamesOf(g);
    LookupUnique(g, l);
    RemoveAllMembers(g, g.listeners);
  }

  lemma DroppedOnline(g: Graph, name: string)
    requires Online(g) && HasForwards(g)
    ensures Online(DropForward(g, name)) && HasForwards(DropForward(g, name))
  {
    hide Without, Lookup, Smart;
  }

  lemma {:induction false} RemoveAllValid(g: Graph, ls: seq<Listener>)
    requires Valid(g) && HasForwards(g)
    ensures Valid(RemoveAll(g, ls)) && HasForwards(RemoveAll(g, ls))
    decreases |ls|
  {
    hide Core, Online, HasForwards, DropForward;
    if ls != [] {
      DropForwardCore(g, ls[0].localName);
      DroppedOnline(g, ls[0].localName);
      RemoveAllValid(if Smart(ls[0]) then g else DropForward(g, ls[0].localName), ls[1..]);
    }
  }

  // ---- requests ----

  datatype ForwardRequest = NotForward | ListAll | KillAll | Malformed
                          | Put(local: string, remote: string, noRebind: bool) | Kill(local: string)

  /** <local>;<remote> of a forward request. */
  function ParsePair(s: string, noRebind: bool): ForwardRequest {
    match FrontEnd.Find(s, ';', 0)
    case None => Malformed
    case Some(i) =>
      var local, remote := s[..i], s[i + 1..];
      if local == "" || remote == "" || remote[0] == '*' then Malformed else Put(local, remote, noRebind)
  }

  /** How handle_forward_request takes a service apart. */
  function ParseForward(s: string): ForwardRequest {
    if s == "list-forward" then ListAll
    else if s == "killforward-all" then KillAll
    else if "forward:" <= s then
      if "norebind:" <= s[8..] then ParsePair(s[17..], true) else ParsePair(s[8..], false)
    else if "killforward:" <= s then
      if s[12..] == "" then Malformed else Kill(s[12..])
    else NotForward
  }

  /** Service s, as text, asks to forward `local` to `remote`. */
  predicate AsksToForward(s: string, local: string, remote: string, noRebind: bool) {
    && local != "" && ';' !in local && remote != "" && remote[0] != '*'
    && if noRebind then s == "forward:norebind:" + local + ";" + remote
       else s == "forward:" + local + ";" + remote && !("norebind:" <= local)
  }

  /** A pair is put together from its halves, and taken apart at the first semicolon. */
  lemma ParsePairMeans(s: string, noRebind: bool, local: string, remote: string)
    ensures ParsePair(s, noRebind) == Put(local, remote, noRebind) <==>
              s == local + ";" + remote && local != "" && ';' !in local && remote != "" && remote[0] != '*'
  {
    if s == local + ";" + remote {
      ParsePairPrinted(local, remote, noRebind);
    }
    if ParsePair(s, noRebind) == Put(local, remote, noRebind) {
      var i := FrontEnd.Find(s, ';', 0).value;
      assert s == s[..i] + [s[i]] + s[i + 1..];
    }
  }

  /** handle_forward_request reads a forward out of exactly the texts that ask for it. */
  lemma ForwardMeans(s: string, local: string, remote: string, noRebind: bool)
    ensures ParseForward(s) == Put(local, remote, noRebind) <==> AsksToForward(s, local, remote, noRebind)
  {
    hide ParsePair;
    var pair := local + ";" + remote;
    var head := if noRebind then "forward:norebind:" else "forward:";
    assert head + local + ";" + remote == head + pair;
    WordBefore(local, remote);
    if head <= s {
      ParsePairMeans(s[|head|..], noRebind, local, remote);
      assert s == head + s[|head|..] && s[0] == 'f';
      BehindHead(s, head, pair);
    }
    if "forward:" <= s {
      RebindWord(s);
      PairKeepsFlag(s[8..], false);
      if "norebind:" <= s[8..] {
        PairKeepsFlag(s[17..], true);
      }
    }
  }

  /** Service s asks to forward something. */
  ghost predicate WellFormed(s: string) {
    exists local, remote, noRebind :: AsksToForward(s, local, remote, noRebind)
  }

  /** How any service is understood, told from its text. */
  lemma RequestText(s: string)
    ensures ParseForward(s).ListAll? <==> s == "list-forward"
    ensures ParseForward(s).KillAll? <==> s == "killforward-all"
    ensures ParseForward(s).Kill? <==> "killforward:" <= s && s != "killforward:"
    ensures ParseForward(s).Kill? ==> s == "killforward:" + ParseForward(s).local
    ensures ParseForward(s).Put? <==> WellFormed(s)
    ensures ParseForward(s).Malformed? <==> s == "killforward:" || ("forward:" <= s && !WellFormed(s))
    ensures ParseForward(s).NotForward? <==>
              && s != "list-forward" && s != "killforward-all" && !("forward:" <= s) && !("killforward:" <= s)
    ensures forall local, remote, noRebind {:trigger AsksToForward(s, local, remote, noRebind)} ::
              AsksToForward(s, local, remote, noRebind) <==> ParseForward(s) == Put(local, remote, noRebind)
  {
    hide AsksToForward;
    Heads(s);
    forall local, remote, noRebind {:trigger AsksToForward(s, local, remote, noRebind)}
      ensures AsksToForward(s, local, remote, noRebind) <==> ParseForward(s) == Put(local, remote, noRebind)
    {
      ForwardMeans(s, local, remote, noRebind);
    }
    if ParseForward(s).Put? {
      var r := ParseForward(s);
      assert AsksToForward(s, r.local, r.remote, r.noRebind);
    }
  }

  /** The words that requests start with exclude each other. */
  lemma Heads(s: string)
    ensures "forward:" <= s ==> s != "list-forward" && s != "killforward-all" && !("killforward:" <= s)
    ensures "killforward:" <= s ==>
              s != "list-forward" && s != "killforward-all" && s == "killforward:" + s[12..]
  {
    if "forward:" <= s {
      assert s[0] == 'f';
    }
    if "killforward:" <= s {
      assert s[0] == 'k' && s[11] == ':';
    }
  }

  lemma BehindHead(s: string, head: string, pair: string)
    requires head <= s
    ensures s[|head|..] == pair <==> s == head + pair
  {
  }

  lemma RebindWord(s: string)
    requires "forward:" <= s
    ensures "norebind:" <= s[8..] <==> "forward:norebind:" <= s
  {
    assert "forward:" + "norebind:" == "forward:norebind:";
    if "norebind:" <= s[8..] {
      assert s[..17] == s[..8] + s[8..][..9];
    }
    if "forward:norebind:" <= s {
      assert s[8..][..9] == s[..17][8..];
    }
  }

  /** What the client sends (src/commandline.c:1792-1793); its word for norebind already ends in a colon. */
  function PrintForward(local: string, remote: string, noRebind: bool): string {
    (if noRebind then "forward:norebind:" else "forward") + ":" + local + ";" + remote
  }

  lemma ParsePairPrinted(local: string, remote: string, noRebind: bool)
    ensures ParsePair(local + ";" + remote, noRebind) == Put(local, remote, noRebind) <==>
            local != "" && ';' !in local && remote != "" && remote[0] != '*'
  {
    var s := local + ";" + remote;
    assert s[|local|] == ';';
    FrontEnd.FindAppend(local, ";" + remote, ';', 0);
    assert s == local + (";" + remote);
    assert s[..|local|] == local && s[|local| + 1..] == remote;
    hide FrontEnd.Find;
    if ';' in local {
      var i := FrontEnd.Find(s, ';', 0).value;
      assert |s[..i]| != |local|;
    }
  }

  /** A plain forward request is understood exactly when its local name can be told from the rest. */
  lemma ForwardRoundTrip(local: string, remote: string)
    ensures ParseForward(PrintForward(local, remote, false)) == Put(local, remote, false) <==>
            local != "" && ';' !in local && !("norebind:" <= local) && remote != "" && remote[0] != '*'
  {
    hide ParsePair;
    var s := PrintForward(local, remote, false);
    var rest := local + ";" + remote;
    assert s == "forward:" + rest && s[8..] == rest && s[0] == 'f';
    ParsePairPrinted(local, remote, false);
    WordBefore(local, remote);
    if "norebind:" <= rest {
      PairKeepsFlag(s[17..], true);
    }
  }

  lemma PairKeepsFlag(s: string, noRebind: bool)
    ensures ParsePair(s, noRebind).Put? ==> ParsePair(s, noRebind).noRebind == noRebind
  {
  }

  /** The word norebind: lies within the local name or not at all. */
  lemma WordBefore(local: string, remote: string)
    ensures "norebind:" <= local + ";" + remote <==> "norebind:" <= local
  {
    var w := "norebind:";
    var s := local + ";" + remote;
    if |local| < 9 && |s| >= 9 {
      assert s[|local|] == ';' && w[|local|] != ';';
    } else if |local| >= 9 {
      assert s[..9] == local[..9];
    }
  }

  /** The client's norebind form never means the name it was given: it asks for that name behind a colon. */
  lemma NoRebindMisprinted(local: string, remote: string)
    ensures ParseForward(PrintForward(local, remote, true)) != Put(local, remote, true)
    ensures ';' !in local && remote != "" && remote[0] != '*' ==>
              ParseForward(PrintForward(local, remote, true)) == Put(":" + local, remote, true)
  {
    var s := PrintForward(local, remote, true);
    var rest := ":" + local + ";" + remote;
    assert s == "forward:" + ("norebind:" + rest) && s[8..] == "norebind:" + rest && s[17..] == rest && s[0] == 'f';
    ParsePairPrinted(":" + local, remote, true);
    assert rest == (":" + local) + ";" + remote;
    ColonFirst(rest);
    hide ParsePair;
    if local != "" && local[0] != ':' {
      assert ParsePair(rest, true) != Put(local, remote, true);
    }
  }

  lemma ColonFirst(s: string)
    requires s != "" && s[0] == ':'
    ensures ParsePair(s, true).Put? ==> ParsePair(s, true).local[0] == ':'
  {
  }
}
