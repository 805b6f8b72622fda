/**
 Pointers that the program follows without a test. The functions of the model are total: where a
 pointer leads nowhere they do nothing. Here it is shown when a run gets there: each object that a
 handler reaches through a pointer is live at that moment, also in the middle of a walk over a list
 that the walk itself changes, with one exception. The transport that a client has chosen is kept by
 its smart socket without a reference; following it is safe exactly when no removal came in between
 (src/sockets.c:50-584, 842-863, src/transport.c:88-102, src/adb.c:222-229, 748-954, 1616).
 */
module Safety {
  import opened Octets
  import Spec = SocketSpec
  import opened Lists
  import opened Graph
  import opened Handlers
  import opened Isolation
  import opened Forwards
  import opened Runs

  // ---- what is followed ----

  /** The peer of socket s and the transport behind it are live, and the peer leads back. */
  predicate LivePeer(g: Graph, s: Ref) {
    s in g.locals && (g.locals[s].peer.Some? ==> HasLink(g, s) && g.remotes[g.locals[s].peer.value].peer == s)
  }

  /** The walks over the active list look at every socket on it, and at its peer. */
  ghost predicate LiveList(g: Graph) {
    forall s :: s in g.active ==> LivePeer(g, s)
  }

  /** free_listener unhooks the listener from its transport. */
  predicate LiveOwner(g: Graph, name: string) {
    match Lookup(g.listeners, name)
    case None => true
    case Some(l) => l.transport.Some? ==> l.transport.value in g.transports
  }

  /** The object that was chosen, not merely one at its address (src/sockets.c:842, 863). */
  predicate LiveChoice(g: Graph, k: Choice) {
    k.transport in g.transports && g.transports[k.transport].tenure.birth == k.birth
  }

  /** A rebound forward leaves the list of a transport that it does have. */
  predicate Owned(g: Graph, name: string) {
    match Lookup(g.listeners, name)
    case None => true
    case Some(l) => !Smart(l) ==> l.transport.Some?
  }

  /** A disconnect callback gets a live object of its own. */
  predicate LiveEntry(g: Graph, d: Disconnect) {
    match d
    case OfForward(name) => Lookup(g.listeners, name).Some? && LiveOwner(g, name)
    case OfSocket(r) =>
      r in g.remotes && LivePeer(g, g.remotes[r].peer) && g.locals[g.remotes[r].peer].peer == Some(r)
  }

  /** run_transport_disconnects: each entry is live when its turn comes. */
  predicate LiveRun(g: Graph, ds: seq<Disconnect>)
    decreases |ds|
  {
    ds == [] || (LiveEntry(g, ds[0]) && LiveRun(CallDisconnect(g, ds[0]), ds[1..]))
  }

  /** close_all_sockets: every round walks a list of live sockets and closes one of them. */
  ghost predicate LiveExit(g: Graph, t: Ref)
    decreases |g.active|
  {
    && LiveList(g)
    && match FirstOn(g, g.active, t)
       case None => true
       case Some(s) =>
         var h := CloseLocked(g, s, true);
         |h.active| < |g.active| && LiveExit(h, t)
  }

  /** remove_all_listeners: each listener is still there when its turn comes. */
  predicate LiveSweep(g: Graph, ls: seq<Listener>)
    decreases |ls|
  {
    ls == []
    || (ls[0] in g.listeners && LiveOwner(g, ls[0].localName)
        && LiveSweep(if Smart(ls[0]) then g else DropForward(g, ls[0].localName), ls[1..]))
  }

  /** handle_offline: the transport outlives its callbacks. */
  predicate LiveOffline(g: Graph, t: Ref)
    requires t in g.transports
  {
    LiveRun(SetState(g, t, Offline, false), g.transports[t].disconnects) && t in GoOffline(g, t).transports
  }

  /** Every pointer followed without a test in a step is live. */
  ghost predicate Safe(g: Graph, e: Event)
    requires Can(g, e)
  {
    match e
    case GetOkay(_, _, _) => LiveList(g)
    case GetClose(_, _, _) => LiveList(g)
    case GetWrite(t, from, to, data, env) =>
      && LiveList(g)
      && (from != 0 && Find(g, to, from).Some? ==> t in Enqueue(g, Find(g, to, from).value, data, env).0.transports)
    case Accept(name, _) => LiveOwner(g, name) && Owned(g, name)
    case Ask(c, _) => g.front.clients[c].Some? ==> LiveChoice(g, g.front.clients[c].value)
    case CanWrite(s, env) =>
      LivePeer(g, s) && (DrainsOpen(g, s, env) ==> g.locals[s].peer.Some?)
    case CanRead(s, _) => LivePeer(g, s)
    case HangUp(s) => LivePeer(g, s)
    case GetSync(t, arg0, _) => arg0 == 0 ==> LiveOffline(g, t)
    case GetConnect(t, _) => g.transports[t].state != Offline ==> LiveOffline(g, t)
    case Unregister(t) =>
      var ds := g.transports[t].disconnects; LiveRun(g, ds) && t in RunAll(g, ds).transports
    case InputExits(t) => LiveExit(g, t)
    case AddForward(name, _, _, _, _) => LiveOwner(g, name) && Owned(g, name)
    case KillForward(name, _) => LiveOwner(g, name)
    case KillAllForwards => LiveSweep(g, g.listeners)
    case _ => true
  }

  /** The backlog of an open socket is gone, so its peer is told that it may go on (src/sockets.c:336). */
  predicate DrainsOpen(g: Graph, s: Ref, env: seq<Spec.WriteResult>)
    requires s in g.locals
  {
    Spec.DrainQueue(g.locals[s].queue, env).verdict.Drained? && !g.locals[s].closing
  }

  // ---- why it is live ----

  lemma PeerLives(g: Graph, s: Ref)
    requires Core(g) && s in g.locals
    ensures LivePeer(g, s)
  {
    if g.locals[s].peer.Some? {
      LinkExists(g, s);
    }
    hide Core;
  }

  lemma ListLives(g: Graph)
    requires Core(g)
    ensures LiveList(g)
  {
    forall s | s in g.active ensures LivePeer(g, s) {
      ActiveHere(g, s);
      PeerLives(g, s);
    }
    hide Core;
  }

  lemma OwnerLives(g: Graph, name: string)
    requires Forwarded(g)
    ensures LiveOwner(g, name)
  {
    hide Lookup;
  }

  lemma OwnedLives(g: Graph, name: string)
    requires HasForwards(g)
    ensures Owned(g, name)
  {
    hide Lookup;
  }

  lemma EntryLives(g: Graph, t: Ref, d: Disconnect)
    requires Core(g) && t in g.transports && d in g.transports[t].disconnects
    ensures LiveEntry(g, d)
  {
    match d
    case OfForward(name) =>
      OwnerLives(g, name);
      hide Lookup;
    case OfSocket(r) =>
      assert r in g.remotes && RemoteOk(g, r) by {
        assert TransportOk(g, t);
      }
      PeerLives(g, g.remotes[r].peer);
      hide Core;
  }

  /** A callback on a live entry. */
  lemma CallIs(g: Graph, d: Disconnect)
    requires LiveEntry(g, d)
    ensures match d
            case OfForward(name) => CallDisconnect(g, d) == DropForward(g, name)
            case OfSocket(r) =>
              && r in g.remotes && HasLink(g, g.remotes[r].peer)
              && CallDisconnect(g, d) == Disconnected(g, g.remotes[r].peer)
  {
    hide DropForward, Disconnected, Lookup;
  }

  lemma {:induction false} RunLives(g: Graph, t: Ref, ds: seq<Disconnect>)
    requires Core(g) && t in g.transports && g.transports[t].disconnects == ds
    ensures LiveRun(g, ds) && t in RunAll(g, ds).transports
    decreases |ds|
  {
    hide Core, Away, CallDisconnect, LiveEntry;
    if ds != [] {
      EntryLives(g, t, ds[0]);
      CallHead(g, t);
      RunLives(CallDisconnect(g, ds[0]), t, ds[1..]);
    }
  }

  lemma OfflineLives(g: Graph, t: Ref)
    requires Core(g) && t in g.transports
    ensures LiveOffline(g, t)
  {
    hide Core, LiveRun, RunAll;
    SetStateCore(g, t, Offline, false);
    RunLives(SetState(g, t, Offline, false), t, g.transports[t].disconnects);
  }

  lemma {:induction false} ExitLives(g: Graph, t: Ref)
    requires Valid(g)
    ensures LiveExit(g, t)
    decreases |g.active|
  {
    hide Core, Online, LiveList, FirstOn, CloseLocked, CloseListed, Only, Without, View, Spec.CloseLocked;
    ListLives(g);
    CloseListedStep(g, t);
    if FirstOn(g, g.active, t).Some? {
      ExitLives(CloseLocked(g, FirstOn(g, g.active, t).value, true), t);
    }
  }

  lemma {:induction false} SweepLives(g: Graph, ls: seq<Listener>)
    requires Core(g) && Named(ls) && forall l :: l in ls ==> l in g.listeners
    ensures LiveSweep(g, ls)
    decreases |ls|
  {
    hide Core, LiveOwner, DropForward;
    if ls != [] {
      ForwardedOf(g);
      OwnerLives(g, ls[0].localName);
      var h := if Smart(ls[0]) then g else DropForward(g, ls[0].localName);
      DropForwardCore(g, ls[0].localName);
      forall l | l in ls[1..] ensures l in h.listeners {
        OthersStay(g, ls[0].localName, l);
      }
      SweepLives(h, ls[1..]);
    }
  }

  lemma ForwardedOf(g: Graph)
    requires Core(g)
    ensures Forwarded(g) && Named(g.listeners)
  {
    hide Listed, Linked, Ids, Sessions, Backed;
  }

  lemma OthersStay(g: Graph, name: string, l: Listener)
    requires l in g.listeners && l.localName != name
    ensures l in DropForward(g, name).listeners
  {
    hide Lookup;
  }

  lemma WriteLives(g: Graph, t: Ref, from: nat, to: nat, data: bytes, env: seq<Spec.WriteResult>)
    requires Valid(g) && t in g.transports && from != 0 && Find(g, to, from).Some?
    ensures t in Enqueue(g, Find(g, to, from).value, data, env).0.transports
  {
    hide Valid, FindIn, Enqueue, Spec.OnWrite, SaidAll;
    FoundIsLinked(g, to, from);
    EnqueueDoes(g, Find(g, to, from).value, data, env);
  }

  lemma DrainLives(g: Graph, s: Ref, env: seq<Spec.WriteResult>)
    requires Valid(g) && s in g.locals && g.locals[s].wantWrite
    ensures DrainsOpen(g, s, env) ==> g.locals[s].peer.Some?
  {
    hide Valid, Spec.DrainQueue;
    WantsWrite(g, s);
    if s in g.closing {
      ClosingFields(g, s);
    }
  }

  /** No step but a client's request follows a pointer to an object that is not there. */
  lemma StepSafe(g: Graph, e: Event)
    requires Good(g) && Can(g, e) && !e.Ask?
    ensures Safe(g, e)
  {
    hide Core, Online, LiveList, LivePeer, LiveOwner, LiveRun, LiveOffline, LiveExit, LiveSweep, DrainsOpen, Owned,
         FindIn, Enqueue, RunAll, HasForwards, Born, Lookup;
    ListLives(g);
    match e
    case GetWrite(t, from, to, data, env) =>
      if from != 0 && Find(g, to, from).Some? {
        WriteLives(g, t, from, to, data, env);
      }
    case CanWrite(s, env) =>
      PeerLives(g, s);
      DrainLives(g, s, env);
    case CanRead(s, _) => PeerLives(g, s);
    case HangUp(s) => PeerLives(g, s);
    case GetSync(t, _, _) => OfflineLives(g, t);
    case GetConnect(t, _) => OfflineLives(g, t);
    case Unregister(t) => RunLives(g, t, g.transports[t].disconnects);
    case InputExits(t) => ExitLives(g, t);
    case Accept(name, _) => ListenerLives(g, name);
    case AddForward(name, _, _, _, _) => ListenerLives(g, name);
    case KillForward(name, _) => ListenerLives(g, name);
    case KillAllForwards =>
      ForwardedOf(g);
      SweepLives(g, g.listeners);
    case _ =>
  }

  lemma ListenerLives(g: Graph, name: string)
    requires Core(g) && HasForwards(g)
    ensures LiveOwner(g, name) && Owned(g, name)
  {
    hide Core, LiveOwner, Owned, HasForwards;
    ForwardedOf(g);
    OwnerLives(g, name);
    OwnedLives(g, name);
  }

  // ---- the transport of a client ----

  ghost predicate Steps(g: Graph, e: Event, h: Graph) {
    Can(g, e) && h == After(g, e)
  }

  /** A run from a good state without clients. */
  ghost predicate Run(states: seq<Graph>, events: seq<Event>) {
    && |states| == |events| + 1 && Good(states[0]) && states[0].front.clients == map[]
    && forall i :: 0 <= i < |events| ==> Steps(states[i], events[i], states[i + 1])
  }

  lemma StepAt(states: seq<Graph>, events: seq<Event>, i: nat)
    requires Run(states, events) && i < |events|
    ensures Can(states[i], events[i]) && states[i + 1] == After(states[i], events[i])
  {
    hide Good, Can, After;
    assert Steps(states[i], events[i], states[i + 1]);
  }

  lemma {:induction false} RunGood(states: seq<Graph>, events: seq<Event>, i: nat)
    requires Run(states, events) && i < |states|
    ensures Good(states[i])
  {
    hide Good, AllMove, Can, After, FrontAfter, Tenures;
    if i > 0 {
      RunGood(states, events, i - 1);
      StepAt(states, events, i - 1);
      StepGood(states[i - 1], events[i - 1]);
    }
  }

  /** The facts of one step that matter here. */
  lemma StepFront(states: seq<Graph>, events: seq<Event>, i: nat)
    requires Run(states, events) && i < |events|
    ensures var g, h, e := states[i], states[i + 1], events[i];
            Born(g) && Born(h) && Can(g, e) && h.front == FrontAfter(g, e) && Tenures(g, h, e)
  {
    hide Valid, HasForwards, AllMove, Can, After, FrontAfter, Tenures, Born;
    RunGood(states, events, i);
    StepAt(states, events, i);
    StepGood(states[i], events[i]);
  }

  /** Event i is the last choice client c made before state j, and the client is still the same. */
  ghost predicate LastChoice(events: seq<Event>, i: nat, j: nat, c: Ref, t: Ref) {
    && i < j <= |events| && events[i] == Choose(c, t)
    && forall m :: i < m < j ==> !(events[m].Choose? && events[m].c == c) && !(events[m].Accept? && events[m].c == c)
  }

  ghost predicate Removes(events: seq<Event>, i: nat, j: nat, t: Ref) {
    exists m :: i <= m < j <= |events| && events[m] == Unregister(t)
  }

  /** One step of a client: it has its choice from before, or has just made it, or is new. */
  lemma ClientStays(g: Graph, h: Graph, e: Event, c: Ref)
    requires Can(g, e) && h.front == FrontAfter(g, e) && c in h.front.clients
    requires !(e.Accept? && e.c == c)
    ensures c in g.front.clients
    ensures h.front.clients[c] ==
            if e.Choose? && e.c == c then Some(Choice(e.t, g.transports[e.t].tenure.birth)) else g.front.clients[c]
  {
    hide Lookup, Smart;
  }

  /** A new client has chosen nothing. */
  lemma ClientNew(g: Graph, h: Graph, e: Event, c: Ref)
    requires Can(g, e) && h.front == FrontAfter(g, e) && c in h.front.clients && e.Accept? && e.c == c
    ensures h.front.clients[c].None?
  {
    hide Lookup, Smart;
  }

  /** What a client has chosen is what its last choice was. */
  lemma {:induction false} ChoiceIs(states: seq<Graph>, events: seq<Event>, i: nat, j: nat, c: Ref, t: Ref)
    requires Run(states, events) && LastChoice(events, i, j, c, t) && c in states[j].front.clients
    ensures t in states[i].transports
    ensures states[j].front.clients[c] == Some(Choice(t, states[i].transports[t].tenure.birth))
    decreases j
  {
    hide Can, FrontAfter, Tenures, Born, After, Good;
    StepFront(states, events, j - 1);
    ClientStays(states[j - 1], states[j], events[j - 1], c);
    if j - 1 > i {
      ChoiceIs(states, events, i, j - 1, c, t);
    } else {
      CanChoose(states[i], c, t);
    }
  }

  lemma CanChoose(g: Graph, c: Ref, t: Ref)
    requires Can(g, Choose(c, t))
    ensures t in g.transports
  {
  }

  /** A client that has chosen once made its choice. */
  lemma {:induction false} ChoiceWas(states: seq<Graph>, events: seq<Event>, j: nat, c: Ref) returns (i: nat)
    requires Run(states, events) && j < |states| && c in states[j].front.clients && states[j].front.clients[c].Some?
    ensures LastChoice(events, i, j, c, states[j].front.clients[c].value.transport)
    decreases j
  {
    hide Can, FrontAfter, Tenures, Born, After, Good;
    StepFront(states, events, j - 1);
    var g, h, e := states[j - 1], states[j], events[j - 1];
    if e.Accept? && e.c == c {
      ClientNew(g, h, e, c);
    }
    ClientStays(g, h, e, c);
    if e.Choose? && e.c == c {
      i := j - 1;
    } else {
      i := ChoiceWas(states, events, j - 1, c);
    }
  }

  /** An object lives until it is removed, and not again. */
  lemma LiveStep(g: Graph, h: Graph, e: Event, k: Choice)
    requires Born(g) && Tenures(g, h, e) && k.birth < g.front.born && (e.Register? ==> e.t !in g.transports)
    ensures LiveChoice(g, k) ==> (LiveChoice(h, k) <==> e != Unregister(k.transport))
    ensures !LiveChoice(g, k) ==> !LiveChoice(h, k)
  {
  }

  lemma BornGrows(g: Graph, h: Graph, e: Event)
    requires Can(g, e) && h.front == FrontAfter(g, e)
    ensures g.front.born <= h.front.born && (e.Register? ==> e.t !in g.transports)
  {
    hide Lookup, Smart;
  }

  lemma {:induction false} BornOver(states: seq<Graph>, events: seq<Event>, i: nat, j: nat)
    requires Run(states, events) && i <= j < |states|
    ensures states[i].front.born <= states[j].front.born
    decreases j
  {
    hide Can, FrontAfter, Tenures, Born, After, Good;
    if i < j {
      StepFront(states, events, j - 1);
      BornGrows(states[j - 1], states[j], events[j - 1]);
      BornOver(states, events, i, j - 1);
    }
  }

  /** Whether the object is still the same, told from the events alone. */
  lemma {:induction false} LiveIff(states: seq<Graph>, events: seq<Event>, i: nat, j: nat, k: Choice)
    requires Run(states, events) && i <= j < |states| && LiveChoice(states[i], k) && k.birth < states[i].front.born
    ensures LiveChoice(states[j], k) <==> !Removes(events, i, j, k.transport)
    decreases j
  {
    hide Can, FrontAfter, Tenures, Born, After, Good, LiveChoice;
    if i < j {
      StepFront(states, events, j - 1);
      BornGrows(states[j - 1], states[j], events[j - 1]);
      BornOver(states, events, i, j - 1);
      LiveIff(states, events, i, j - 1, k);
      LiveStep(states[j - 1], states[j], events[j - 1], k);
      assert Removes(events, i, j, k.transport) <==>
             Removes(events, i, j - 1, k.transport) || events[j - 1] == Unregister(k.transport);
    }
  }

  /**
   The pointer that a request follows is live if and only if its transport was not removed since the
   client chose it.
   */
  lemma RequestSafe(states: seq<Graph>, events: seq<Event>, i: nat, j: nat, c: Ref, t: Ref, dest: string)
    requires Run(states, events) && j < |events| && events[j] == Ask(c, dest) && LastChoice(events, i, j, c, t)
    ensures Can(states[j], events[j])
    ensures Safe(states[j], events[j]) <==> !Removes(events, i, j, t)
  {
    hide FrontAfter, Tenures, Born, After, Good, Removes;
    StepAt(states, events, j);
    ChoiceIs(states, events, i, j, c, t);
    var k := Choice(t, states[i].transports[t].tenure.birth);
    BirthOf(states, events, i, t);
    LiveIff(states, events, i, j, k);
  }

  lemma BirthOf(states: seq<Graph>, events: seq<Event>, i: nat, t: Ref)
    requires Run(states, events) && i < |events| && t in states[i].transports
    ensures states[i].transports[t].tenure.birth < states[i].front.born
  {
    hide Can, FrontAfter, Tenures, After, Good;
    StepFront(states, events, i);
  }

  /** In a run, a step is unsafe exactly when it is the request of a client whose choice was removed since. */
  lemma EveryRunSafe(states: seq<Graph>, events: seq<Event>, j: nat)
    requires Run(states, events) && j < |events|
    ensures Can(states[j], events[j])
    ensures Safe(states[j], events[j]) <==> !exists i, t :: Dangling(events, i, j, t)
  {
    hide FrontAfter, Tenures, Born, After, LastChoice, Removes;
    RunGood(states, events, j);
    StepAt(states, events, j);
    var e := events[j];
    if !e.Ask? {
      hide Safe;
      StepSafe(states[j], e);
    } else {
      forall i, t | Dangling(events, i, j, t) ensures !Safe(states[j], e) {
        RequestSafe(states, events, i, j, e.c, t, e.dest);
      }
      if !Safe(states[j], e) {
        var i := ChoiceWas(states, events, j, e.c);
        var t := states[j].front.clients[e.c].value.transport;
        RequestSafe(states, events, i, j, e.c, t, e.dest);
        assert Dangling(events, i, j, t);
      }
    }
  }

  ghost predicate Dangling(events: seq<Event>, i: nat, j: nat, t: Ref) {
    j < |events| && events[j].Ask? && LastChoice(events, i, j, events[j].c, t) && Removes(events, i, j, t)
  }

  // ---- the input thread's sweep ----

  /** While the input thread of t has not left, a client that has chosen t has chosen the object that is there. */
  lemma {:induction false} SweptOrLive(states: seq<Graph>, events: seq<Event>, i: nat, j: nat, c: Ref, t: Ref)
    requires Run(states, events) && LastChoice(events, i, j, c, t) && c in states[j].front.clients
    requires t in states[i].transports && !states[i].transports[t].tenure.left
    ensures LiveChoice(states[j], Choice(t, states[i].transports[t].tenure.birth))
    ensures !states[j].transports[t].tenure.left
    decreases j
  {
    hide Can, FrontAfter, Tenures, Born, After, Good;
    var g, h, e := states[j - 1], states[j], events[j - 1];
    StepFront(states, events, j - 1);
    ClientStays(g, h, e, c);
    if j - 1 > i {
      SweptOrLive(states, events, i, j - 1, c, t);
      ChoiceIs(states, events, i, j - 1, c, t);
    }
    NotSwept(g, h, e, c, t);
  }

  /** A step that leaves the client its choice leaves the input thread in place. */
  lemma NotSwept(g: Graph, h: Graph, e: Event, c: Ref, t: Ref)
    requires Can(g, e) && h.front == FrontAfter(g, e) && Tenures(g, h, e)
    requires t in g.transports && !g.transports[t].tenure.left
    requires c in h.front.clients && c in g.front.clients && (e == Choose(c, t) || Chose(g.front.clients[c], t))
    ensures t in h.transports && h.transports[t].tenure == g.transports[t].tenure
  {
    hide Lookup, Smart;
  }

  /** A choice made before the input thread left is never followed once it is stale. */
  lemma EarlyChoiceSafe(states: seq<Graph>, events: seq<Event>, i: nat, j: nat, c: Ref, t: Ref, dest: string)
    requires Run(states, events) && j < |events| && events[j] == Ask(c, dest) && LastChoice(events, i, j, c, t)
    requires t in states[i].transports && !states[i].transports[t].tenure.left
    ensures Can(states[j], events[j]) && Safe(states[j], events[j])
  {
    hide FrontAfter, Tenures, Born, After, Good, LastChoice;
    StepAt(states, events, j);
    ChoiceIs(states, events, i, j, c, t);
    SweptOrLive(states, events, i, j, c, t);
  }

  // ---- the run in which it fails ----

  /** A server with one transport that owns nothing. */
  function Lone(t: Ref, x: Transport, clients: map<Ref, Option<Choice>>): Graph {
    Boot.(transports := map[t := x], front := Front(clients, 1))
  }

  lemma LoneSync(t: Ref, x: Transport)
    requires x.disconnects == []
    ensures var y := x.(state := Offline, online := false, sent := x.sent + [Sync(0, 0)]);
            Steps(Lone(t, x, map[]), GetSync(t, 0, 0), Lone(t, y, map[]))
  {
    assert RunAll(SetState(Lone(t, x, map[]), t, Offline, false), []) == SetState(Lone(t, x, map[]), t, Offline, false);
  }

  lemma LoneExits(t: Ref, x: Transport)
    requires !x.tenure.left
    ensures Steps(Lone(t, x, map[]), InputExits(t), Lone(t, x.(tenure := x.tenure.(left := true)), map[]))
  {
    var g := Lone(t, x, map[]);
    assert FirstOn(g, g.active, t) == None && CloseListed(g, t) == g;
    assert Unchosen(map[], t) == map[];
  }

  lemma LoneConnects(t: Ref, x: Transport)
    requires x.state == Offline
    ensures Steps(Lone(t, x, map[]), GetConnect(t, "device::"), Lone(t, x.(state := Device, online := true), map[]))
  {
    hide BannerState, GoOffline;
    DeviceBanner();
  }

  lemma LoneAccepts(t: Ref, x: Transport, c: Ref)
    ensures Steps(Lone(t, x, map[]), Accept("tcp:5037", c), Lone(t, x, map[c := None]))
  {
    assert Smart(Boot.listeners[0]);
  }

  lemma LoneChooses(t: Ref, x: Transport, c: Ref)
    requires Usable(x.state)
    ensures Steps(Lone(t, x, map[c := None]), Choose(c, t), Lone(t, x, map[c := Some(Choice(t, x.tenure.birth))]))
  {
  }

  lemma LoneRemoved(t: Ref, x: Transport, clients: map<Ref, Option<Choice>>)
    requires x.disconnects == [] && x.tenure.left
    ensures Steps(Lone(t, x, clients), Unregister(t), Boot.(front := Front(clients, 1)))
  {
    assert map[t := x] - {t} == map[];
  }

  lemma LoneAsks(c: Ref, k: Choice, dest: string)
    ensures var g := Boot.(front := Front(map[c := Some(k)], 1));
            Steps(g, Ask(c, dest), After(g, Ask(c, dest))) && !Safe(g, Ask(c, dest))
  {
  }

  /**
   A device ends its session and begins a new one, but the input thread has left by then. A client
   that chooses the device now is not swept: the device goes, and the client's request follows a
   pointer to what has been freed.
   */
  lemma DanglingRun(t: Ref, c: Ref, dest: string) returns (states: seq<Graph>, events: seq<Event>)
    ensures Run(states, events) && states[0] == Boot && |events| == 9
    ensures events[5..] == [Accept("tcp:5037", c), Choose(c, t), Unregister(t), Ask(c, dest)]
    ensures Can(states[8], events[8]) && !Safe(states[8], events[8])
  {
    hide Steps, Good;
    BootGood();
    DeviceSteps(t);
    var x2 := WithDevice(t).transports[t];
    var x3 := x2.(state := Offline, online := false, sent := x2.sent + [Sync(0, 0)]);
    var x4 := x3.(tenure := x3.tenure.(left := true));
    var x5 := x4.(state := Device, online := true);
    var k := Choice(t, x5.tenure.birth);
    LoneSync(t, x2);
    LoneExits(t, x3);
    LoneConnects(t, x4);
    LoneAccepts(t, x5, c);
    LoneChooses(t, x5, c);
    LoneRemoved(t, x5, map[c := Some(k)]);
    LoneAsks(c, k, dest);
    var g8 := Boot.(front := Front(map[c := Some(k)], 1));
    events := [Register(t, false), GetConnect(t, "device::"), GetSync(t, 0, 0), InputExits(t),
               GetConnect(t, "device::"), Accept("tcp:5037", c), Choose(c, t), Unregister(t), Ask(c, dest)];
    states := [Boot, After(Boot, Register(t, false)), Lone(t, x2, map[]), Lone(t, x3, map[]), Lone(t, x4, map[]),
               Lone(t, x5, map[]), Lone(t, x5, map[c := None]), Lone(t, x5, map[c := Some(k)]), g8,
               After(g8, Ask(c, dest))];
    hide After, Can, Safe;
  }

  lemma DeviceSteps(t: Ref)
    ensures Steps(Boot, Register(t, false), After(Boot, Register(t, false)))
    ensures Steps(After(Boot, Register(t, false)), GetConnect(t, "device::"),
                  Lone(t, WithDevice(t).transports[t], map[]))
  {
    hide After;
    DeviceConnects(t);
  }
}
