/**
 What a socket has read and written is what its descriptor gave and took: for every event of the process, the
 history that `SocketSpec` keeps grows by the bytes of the system calls made in that event, and by no others.
 */
module Ledger {
  import opened Octets
  import opened Lists
  import Spec = SocketSpec
  import opened Calls
  import opened Graph
  import opened Handlers
  import opened Isolation
  import opened Forwards
  import Runs
  import Safety

  /** What the read calls of event e give to the far side of socket u. */
  function ReadIn(g: Graph, e: Runs.Event, u: Ref): bytes {
    if e.CanRead? && e.s == u && HasLink(g, u) then Given(e.incoming) else []
  }

  /** Whether event e is a WRITE that gets to socket u. */
  predicate Gets(g: Graph, e: Runs.Event, u: Ref) {
    && e.GetWrite? && e.t in g.transports && g.transports[e.t].online && e.from != 0 && e.to != 0
    && Find(g, e.to, e.from) == Some(u)
  }

  /** What the write calls of event e take from socket u: of its backlog, or of a packet that finds none. */
  function WrittenIn(g: Graph, e: Runs.Event, u: Ref): bytes {
    if e.CanWrite? && e.s == u then TakenDrain(View(g, u).queue, e.env)
    else if Gets(g, e, u) && View(g, u).queue == [] then TakenFirst(e.data, e.env)
    else []
  }

  /** The write calls of event e failed at socket u before they took everything. */
  predicate Fails(g: Graph, e: Runs.Event, u: Ref) {
    if e.CanWrite? then
      e.s == u && Ending(WrittenIn(g, e, u) == Joined(View(g, u).queue), Stopper(e.env, StopsDrain)).Broken?
    else
      && Gets(g, e, u) && View(g, u).queue == []
      && Ending(WrittenIn(g, e, u) == e.data, Stopper(e.env, StopsFirst)).Broken?
  }

  /** Event e ends the session of transport t. */
  predicate EndsSession(g: Graph, e: Runs.Event, t: Ref) {
    || e == Runs.Unregister(t)
    || (e.GetSync? && e.t == t && e.arg0 == 0)
    || (e.GetConnect? && e.t == t && t in g.transports && g.transports[t].state != Offline)
  }

  /** Event e makes socket u close of its own accord, not because the far side has or its backlog is out. */
  predicate FaultIn(g: Graph, e: Runs.Event, u: Ref) {
    && u in g.locals
    && (|| (e.CanRead? && e.s == u && SeesEnd(e.incoming))
        || Fails(g, e, u)
        || e == Runs.HangUp(u)
        || (e.InputExits? && u in g.active && Concerns(g, u, e.t))
        || (HasLink(g, u) && EndsSession(g, e, LinkOf(g, u))))
  }

  /** Socket a has become b, with these bytes read and these written, and gave up or not. */
  predicate Books(a: Spec.Sock, b: Spec.Sock, read: bytes, written: bytes, fault: bool) {
    && b.got == a.got + read && Spec.Payload(b.out) == Spec.Payload(a.out) + written
    && b.fault == (a.fault || fault)
  }

  // ---- one socket ----

  lemma StatusIsNoData(out: seq<Spec.FdWrite>, w: Spec.FdWrite)
    ensures Spec.Payload(out + [w]) == Spec.Payload(out) + (if w.Chunk? then w.data else [])
  {
    assert (out + [w])[..|out|] == out;
  }

  lemma SameBooks(a: Spec.Sock, b: Spec.Sock)
    requires b.got == a.got && b.out == a.out && b.fault == a.fault
    ensures Books(a, b, [], [], false)
  {
    hide Spec.Payload;
    assert a.got + [] == a.got && Spec.Payload(a.out) + [] == Spec.Payload(a.out);
  }

  lemma CloseBooks(a: Spec.Sock, fault: bool)
    ensures Books(a, Spec.Close(a, fault).sock, [], [], fault)
    ensures Books(a, Spec.CloseLocked(a, fault).sock, [], [], fault) && Books(a, Spec.Lost(a), [], [], true)
  {
    hide Spec.Payload;
    StatusIsNoData(a.out, Spec.FailStatus);
    SameBooks(a, a);
  }

  lemma OkayBooks(a: Spec.Sock)
    ensures Books(a, Spec.OnOkay(a), [], [], false)
  {
    hide Spec.Payload;
    StatusIsNoData(a.out, Spec.OkayStatus);
    SameBooks(a, a);
  }

  lemma ThenBooks(a: Spec.Sock, b: Spec.Sock, c: Spec.Sock, read: bytes, written: bytes, one: bool, two: bool)
    requires Books(a, b, read, written, one) && Books(b, c, [], [], two)
    ensures Books(a, c, read, written, one || two)
  {
    hide Spec.Payload;
  }

  lemma ChunkBooks(a: Spec.Sock, b: Spec.Sock, data: bytes)
    requires b.got == a.got && b.out == a.out + [Spec.Chunk(data)] && b.fault == a.fault
    ensures Books(a, b, [], data, false)
  {
    hide Spec.Payload;
    StatusIsNoData(a.out, Spec.Chunk(data));
  }

  lemma WriteBooks(a: Spec.Sock, data: bytes, env: seq<Spec.WriteResult>)
    ensures var took := if a.queue == [] then TakenFirst(data, env) else [];
            Books(a, Spec.OnWrite(a, data, env).sock, [], took,
                  a.queue == [] && Ending(took == data, Stopper(env, StopsFirst)).Broken?)
  {
    hide Books, Spec.FirstWrite, Spec.Close, Sum, Prior, Stopper;
    if a.queue != [] {
      SameBooks(a, Spec.OnWrite(a, data, env).sock);
    } else {
      FirstWriteIs(data, env);
      var w := Spec.FirstWrite(data, env);
      var t := a.(out := a.out + [Spec.Chunk(data[..w.0])]);
      ChunkBooks(a, t, data[..w.0]);
      ChunkBooks(a, t.(queue := [data[w.0..]]), data[..w.0]);
      CloseBooks(t, true);
      ThenBooks(a, t, Spec.Close(t, true).sock, [], data[..w.0], false, true);
    }
  }

  lemma WritableBooks(a: Spec.Sock, env: seq<Spec.WriteResult>)
    ensures var took := TakenDrain(a.queue, env);
            Books(a, Spec.OnWritable(a, env).sock, [], took,
                  Ending(took == Joined(a.queue), Stopper(env, StopsDrain)).Broken?)
  {
    hide Books, Spec.DrainQueue, Spec.Close, TakenDrain, Took, Joined, Stopper;
    DrainQueueIs(a.queue, env);
    var d := Spec.DrainQueue(a.queue, env);
    var t := a.(out := a.out + [Spec.Chunk(d.sent)], queue := d.rest);
    ChunkBooks(a, t, d.sent);
    CloseBooks(t, true);
    CloseBooks(t, false);
    ThenBooks(a, t, Spec.Close(t, true).sock, [], d.sent, false, true);
    ThenBooks(a, t, Spec.Close(t, false).sock, [], d.sent, false, false);
  }

  lemma ReadableBooks(a: Spec.Sock, env: seq<Spec.ReadResult>)
    ensures Books(a, Spec.OnReadable(a, env).sock, Given(env), [], SeesEnd(env))
  {
    hide Spec.ReadUp, Spec.Close, Supply, Spec.Payload, Stopper;
    ReadUpIs(MAX_PAYLOAD, env);
    var r := Spec.ReadUp(MAX_PAYLOAD, env);
    var t := if r.0 == [] then a else a.(got := a.got + r.0, wantRead := false);
    assert Books(a, t, Given(env), [], false);
    CloseBooks(t, true);
    ThenBooks(a, t, Spec.Close(t, true).sock, Given(env), [], false, true);
  }

  // ---- one event ----

  /** What event e does to the books of socket u. */
  ghost predicate Booked(g: Graph, e: Runs.Event, h: Graph, u: Ref) {
    Books(View(g, u), View(h, u), ReadIn(g, e, u), WrittenIn(g, e, u), FaultIn(g, e, u))
  }

  /** Nothing is read or written at socket u, and it does not give up. */
  predicate Quiet(g: Graph, e: Runs.Event, u: Ref) {
    ReadIn(g, e, u) == [] && WrittenIn(g, e, u) == [] && !FaultIn(g, e, u)
  }

  /** An event without system calls that ends nothing. */
  predicate Plain(e: Runs.Event) {
    || Runs.OnFront(e) || Runs.OnForwards(e) || e.Register? || e.GetAuth? || e.GetHandshake?
    || e.GetOpen? || e.GetOkay? || e.GetClose?
  }

  lemma PlainQuiet(g: Graph, e: Runs.Event, u: Ref)
    requires Plain(e)
    ensures Quiet(g, e, u)
  {
    hide View, FindIn;
  }

  lemma OnlyOthers(g: Graph, h: Graph, s: Ref, u: Ref)
    requires Only(g, h, s) && u != s
    ensures View(h, u) == View(g, u)
  {
  }

  /** A step on socket s that reads and writes nothing at u. */
  lemma StillBooked(g: Graph, e: Runs.Event, h: Graph, s: Ref, u: Ref)
    requires Only(g, h, s) && Quiet(g, e, u)
    requires Books(View(g, s), View(h, s), [], [], false)
    ensures Booked(g, e, h, u)
  {
    hide Only, Books, ReadIn, WrittenIn, FaultIn, View;
    if u != s {
      OnlyOthers(g, h, s, u);
      SameBooks(View(g, u), View(h, u));
    }
  }

  lemma SameBooked(g: Graph, e: Runs.Event, h: Graph, u: Ref)
    requires Quiet(g, e, u) && View(h, u) == View(g, u)
    ensures Booked(g, e, h, u)
  {
    hide Books, ReadIn, WrittenIn, FaultIn, View;
    SameBooks(View(g, u), View(h, u));
  }

  /** A step that makes socket g.nextRef. */
  lemma NewBooked(g: Graph, e: Runs.Event, h: Graph, u: Ref)
    requires Only(g, h, g.nextRef) && Quiet(g, e, u)
    requires g.nextRef !in g.locals && g.nextRef !in g.past
    requires View(h, g.nextRef).got == [] && View(h, g.nextRef).out == [] && !View(h, g.nextRef).fault
    ensures Booked(g, e, h, u)
  {
    hide Only, Books, ReadIn, WrittenIn, FaultIn;
    SameBooks(View(g, g.nextRef), View(h, g.nextRef));
    StillBooked(g, e, h, g.nextRef, u);
  }

  lemma OpenBooked(g: Graph, e: Runs.Event, u: Ref)
    requires Valid(g) && Runs.Can(g, e) && e.GetOpen?
    ensures Booked(g, e, Runs.After(g, e), u)
  {
    hide Valid, Only, OnOpen, Sends, Books, Quiet, Booked;
    PlainQuiet(g, e, u);
    OpenDoes(g, e.t, e.from, e.to, e.accept);
    CoreOf(g);
    FreshRef(g);
    var h := Runs.After(g, e);
    if h == g || !e.accept {
      SameBooked(g, e, g, u);
      if h != g {
        SameBooks(View(g, g.nextRef), View(h, g.nextRef));
        StillBooked(g, e, h, g.nextRef, u);
      }
    } else {
      NewBooked(g, e, h, u);
    }
  }

  lemma OkayBooked(g: Graph, e: Runs.Event, u: Ref)
    requires Valid(g) && Runs.Can(g, e) && e.GetOkay?
    ensures Booked(g, e, Runs.After(g, e), u)
  {
    hide Valid, Only, OnOkay, Sends, Books, FindIn, View, Spec.OnOkay, Quiet, Booked;
    PlainQuiet(g, e, u);
    OkayDoes(g, e.t, e.from, e.to);
    var h := Runs.After(g, e);
    if h == g {
      SameBooked(g, e, g, u);
    } else {
      var s := Find(g, e.to, 0).value;
      OkayBooks(View(g, s));
      StillBooked(g, e, h, s, u);
    }
  }

  lemma ClseBooked(g: Graph, e: Runs.Event, u: Ref)
    requires Valid(g) && Runs.Can(g, e) && e.GetClose?
    ensures Booked(g, e, Runs.After(g, e), u)
  {
    hide Valid, Only, OnClse, Sends, SendsNothing, Books, FindIn, View, Spec.Close, Quiet, Booked;
    PlainQuiet(g, e, u);
    ClseDoes(g, e.t, e.from, e.to);
    var h := Runs.After(g, e);
    if h == g {
      SameBooked(g, e, g, u);
    } else {
      var s := Find(g, e.to, e.from).value;
      CloseBooks(View(g, s), false);
      StillBooked(g, e, h, s, u);
    }
  }

  lemma WriteBooked(g: Graph, e: Runs.Event, u: Ref)
    requires Valid(g) && Runs.Can(g, e) && e.GetWrite?
    ensures Booked(g, e, Runs.After(g, e), u)
  {
    hide Valid, Only, OnWrite, Sends, SaidAll, Books, FindIn, View, Spec.OnWrite, TakenFirst;
    WriteDoes(g, e.t, e.from, e.to, e.data, e.env);
    var h := Runs.After(g, e);
    if g.transports[e.t].online && e.from != 0 && e.to != 0 && Find(g, e.to, e.from).Some? {
      var s := Find(g, e.to, e.from).value;
      WriteBooks(View(g, s), e.data, e.env);
      if u != s {
        OnlyOthers(g, h, s, u);
        SameBooked(g, e, h, u);
      }
    } else {
      SameBooked(g, e, g, u);
    }
  }

  lemma WritableBooked(g: Graph, e: Runs.Event, u: Ref)
    requires Valid(g) && Runs.Can(g, e) && e.CanWrite?
    ensures Booked(g, e, Runs.After(g, e), u)
  {
    hide Valid, Only, Writable, Sends, SendsNothing, SaidAll, Books, View, Spec.OnWritable, TakenDrain;
    var s, h := e.s, Runs.After(g, e);
    Runs.WantsWrite(g, s);
    if s in g.closing {
      WritableClosing(g, s, e.env);
    } else {
      WritableLinked(g, s, e.env);
    }
    WritableBooks(View(g, s), e.env);
    if u != s {
      OnlyOthers(g, h, s, u);
      SameBooked(g, e, h, u);
    }
  }

  /** A socket that is closed, whatever for. */
  lemma CloseBooked(g: Graph, e: Runs.Event, s: Ref, u: Ref)
    requires Valid(g) && s in g.locals && ReadIn(g, e, u) == [] && WrittenIn(g, e, u) == []
    requires FaultIn(g, e, u) <==> u == s
    ensures Booked(g, e, Close(g, s, true), u)
  {
    hide Valid, Only, Close, Sends, SendsNothing, Books, View, Spec.Close, ReadIn, WrittenIn, FaultIn;
    CloseDoes(g, s, true);
    CloseBooks(View(g, s), true);
    if u != s {
      OnlyOthers(g, Close(g, s, true), s, u);
      SameBooked(g, e, Close(g, s, true), u);
    }
  }

  lemma ReadableBooked(g: Graph, e: Runs.Event, u: Ref)
    requires Valid(g) && Runs.Can(g, e) && e.CanRead?
    ensures Booked(g, e, Runs.After(g, e), u)
  {
    hide Valid, Only, Readable, Sends, SaidAll, Books, View, Spec.OnReadable, Given, Close, Spec.ReadUp;
    var s, h := e.s, Runs.After(g, e);
    if HasLink(g, s) {
      ReadableLinked(g, s, e.incoming);
      ReadableBooks(View(g, s), e.incoming);
      if u != s {
        OnlyOthers(g, h, s, u);
        SameBooked(g, e, h, u);
      }
    } else {
      Runs.ReadableUnlinked(g, s, e.incoming);
      ReadUpIs(MAX_PAYLOAD, e.incoming);
      if SeesEnd(e.incoming) {
        CloseBooked(g, e, s, u);
      } else {
        SameBooked(g, e, g, u);
      }
    }
  }

  // ---- sessions ----

  /** The callbacks of a transport make no socket. */
  lemma {:induction false} CallbacksMakeNone(g: Graph, t: Ref, ds: seq<Disconnect>, u: Ref)
    requires Core(g) && t in g.transports && g.transports[t].disconnects == ds && !Runs.Known(g, u)
    ensures !Runs.Known(RunAll(g, ds), u)
    decreases |ds|
  {
    hide Core, Away, CallDisconnect;
    if ds != [] {
      CallHead(g, t);
      CallbackMakesNone(g, ds[0], u);
      CallbacksMakeNone(CallDisconnect(g, ds[0]), t, ds[1..], u);
    }
  }

  lemma CallbackMakesNone(g: Graph, d: Disconnect, u: Ref)
    requires Core(g) && !Runs.Known(g, u)
    ensures !Runs.Known(CallDisconnect(g, d), u)
  {
    hide Core, Disconnected, View, Spec.Lost, Without, Lookup;
    if d.OfSocket? && CallDisconnect(g, d) != g {
      DisconnectedParts(g, g.remotes[d.r].peer);
    }
  }

  /** They close the sockets linked over it and leave the others alone. */
  lemma CallbacksBooks(g: Graph, t: Ref, ds: seq<Disconnect>, u: Ref)
    requires Core(g) && t in g.transports && g.transports[t].disconnects == ds
    ensures Books(View(g, u), View(RunAll(g, ds), u), [], [], u in g.locals && OnLink(g, u, t))
  {
    hide Core, Books, RunAll, Spec.Lost, OnLink, SameFront;
    var h := RunAll(g, ds);
    RunAllDoes(g, t, ds);
    AwayPurges(g, h, t);
    CloseBooks(View(g, u), true);
    if u in g.locals {
      if !OnLink(g, u, t) {
        SameBooks(View(g, u), View(h, u));
      }
    } else {
      if u !in g.past {
        CallbacksMakeNone(g, t, ds, u);
      }
      SameBooks(View(g, u), View(h, u));
    }
  }

  lemma OfflineBooks(g: Graph, t: Ref, u: Ref)
    requires Valid(g) && t in g.transports
    ensures Books(View(g, u), View(GoOffline(g, t), u), [], [], u in g.locals && OnLink(g, u, t))
  {
    hide Core, RunAll, View, Books, OnLink;
    SetStateCore(g, t, Offline, false);
    SetStateViews(g, t, Offline, false, u);
    CallbacksBooks(SetState(g, t, Offline, false), t, g.transports[t].disconnects, u);
  }

  /** Closing another socket does not change what socket u has to do with transport t. */
  lemma StillConcerns(g: Graph, k: Graph, s: Ref, u: Ref, t: Ref)
    requires Valid(g) && Only(g, k, s) && u != s
    ensures Concerns(k, u, t) <==> Concerns(g, u, t)
  {
    if u in g.locals && g.locals[u].peer.Some? {
      LinkExists(g, u);
    }
    hide Valid;
    if u in g.locals && !Concerns(g, u, t) {
      OthersConcern(g, k, s, u, t);
    }
  }

  lemma {:induction false} ExitBooks(g: Graph, t: Ref, u: Ref)
    requires Valid(g)
    ensures Books(View(g, u), View(CloseListed(g, t), u), [], [], u in g.active && Concerns(g, u, t))
    decreases |g.active|
  {
    hide Valid, CloseLocked, FirstOn, Only, Without, CloseListed, View, Books, Spec.CloseLocked;
    Runs.CloseListedStep(g, t);
    match FirstOn(g, g.active, t)
    case None => SameBooks(View(g, u), View(g, u));
    case Some(s) =>
      var k := CloseLocked(g, s, true);
      CloseBooks(View(g, s), true);
      ExitBooks(k, t, u);
      if u == s {
        ThenBooks(View(g, u), View(k, u), View(CloseListed(g, t), u), [], [], true, u in k.active && Concerns(k, u, t));
      } else {
        OnlyOthers(g, k, s, u);
        StillConcerns(g, k, s, u, t);
      }
  }

  lemma SameViews(g: Graph, h: Graph, u: Ref)
    requires h.locals == g.locals && h.past == g.past
    ensures View(h, u) == View(g, u)
  {
  }

  lemma LeavingBooked(g: Graph, e: Runs.Event, u: Ref)
    requires Valid(g) && Runs.Can(g, e) && (e.Unregister? || e.InputExits?)
    ensures Booked(g, e, Runs.After(g, e), u)
  {
    hide Valid, RunAll, CloseListed, Books, View;
    var h := Runs.After(g, e);
    if e.Unregister? {
      CoreOf(g);
      CallbacksBooks(g, e.t, g.transports[e.t].disconnects, u);
      SameViews(RunAll(g, g.transports[e.t].disconnects), h, u);
    } else {
      ExitBooks(g, e.t, u);
      SameViews(CloseListed(g, e.t), h, u);
    }
  }

  lemma SessionBooked(g: Graph, e: Runs.Event, u: Ref)
    requires Valid(g) && Runs.Can(g, e) && (e.GetSync? || e.GetConnect?)
    ensures Booked(g, e, Runs.After(g, e), u)
  {
    hide Valid, GoOffline, Books, View, BannerState;
    var h := Runs.After(g, e);
    if EndsSession(g, e, e.t) {
      OfflineBooks(g, e.t, u);
      SameViews(GoOffline(g, e.t), h, u);
    } else {
      SameViews(g, h, u);
      SameBooked(g, e, h, u);
    }
  }

  // ---- clients and forwards ----

  lemma DialBooked(g: Graph, k: Graph, e: Runs.Event, t: Ref, awaiting: bool, dest: string, u: Ref)
    requires Valid(k) && t in k.transports && k.locals == g.locals && k.past == g.past
    requires Quiet(g, e, u)
    ensures Booked(g, e, Runs.Dialled(k, t, awaiting, dest), u)
  {
    hide Valid, Only, Runs.Dialled, Books, View, ReadIn, WrittenIn, FaultIn;
    var h := Runs.Dialled(k, t, awaiting, dest);
    Runs.DialledValid(k, t, awaiting, dest);
    SameViews(g, k, u);
    if u == k.nextRef {
      FreshView(k, u);
      SameBooks(View(k, u), View(h, u));
    } else {
      OnlyOthers(k, h, k.nextRef, u);
      SameBooks(View(k, u), View(h, u));
    }
  }

  lemma FreshView(g: Graph, u: Ref)
    requires u !in g.locals && u !in g.past
    ensures View(g, u) == Spec.FreshSock
  {
  }

  lemma ClientBooked(g: Graph, e: Runs.Event, u: Ref)
    requires Valid(g) && Runs.Can(g, e) && Runs.OnFront(e)
    ensures Booked(g, e, Runs.After(g, e), u)
  {
    hide Valid, Runs.Dialled, Lookup, Smart, Books, View, Quiet, Booked;
    PlainQuiet(g, e, u);
    var h := Runs.After(g, e);
    var l := if e.Accept? then Lookup(g.listeners, e.name) else None;
    if l.Some? && !Smart(l.value) && l.value.transport.Some? && l.value.transport.value in g.transports {
      DialBooked(g, g, e, l.value.transport.value, false, l.value.connectTo, u);
    } else if e.Ask? && Runs.Dials(g, e.c) {
      var k := Runs.WithClients(g, g.front.clients - {e.c});
      Runs.LeftValid(g, k);
      DialBooked(g, k, e, g.front.clients[e.c].value.transport, true, e.dest, u);
    } else {
      SameViews(g, h, u);
      SameBooked(g, e, h, u);
    }
  }

  lemma ForwardBooked(g: Graph, e: Runs.Event, u: Ref)
    requires Runs.Good(g) && Runs.Can(g, e) && Runs.OnForwards(e)
    ensures Booked(g, e, Runs.After(g, e), u)
  {
    hide Valid, HasForwards, InstallListener, DropForward, RemoveAll, AsMap, Books, View, Quiet, Booked;
    PlainQuiet(g, e, u);
    if e.AddForward? {
      Runs.UsableIsOnline(g, e.t);
      InstallIsPut(g, e.name, e.connectTo, e.t, e.noRebind, e.bound);
    } else if e.KillForward? {
      RemoveIsDelete(g, e.name);
      Runs.DropStands(g, e.name);
    } else {
      Runs.RemoveAllStands(g, g.listeners);
    }
    var h := Runs.After(g, e);
    SameViews(g, h, u);
    SameBooked(g, e, h, u);
  }

  /**
   Every event: what any socket has read grows by what the read calls of that event gave it, what it has written
   by what the write calls of that event took, and by nothing else.
   */
  lemma EventBooked(g: Graph, e: Runs.Event, u: Ref)
    requires Runs.Good(g) && Runs.Can(g, e)
    ensures Books(View(g, u), View(Runs.After(g, e), u), ReadIn(g, e, u), WrittenIn(g, e, u), FaultIn(g, e, u))
  {
    hide Valid, HasForwards, Runs.Born, Runs.Can, Runs.After, Books;
    if Runs.OnForwards(e) {
      ForwardBooked(g, e, u);
    } else {
      ProtocolBooked(g, e, u);
    }
  }

  lemma ProtocolBooked(g: Graph, e: Runs.Event, u: Ref)
    requires Valid(g) && Runs.Can(g, e) && !Runs.OnForwards(e)
    ensures Booked(g, e, Runs.After(g, e), u)
  {
    hide Valid, Runs.Can, Runs.After, Books, View, Booked;
    match e
    case GetOpen(_, _, _, _) => OpenBooked(g, e, u);
    case GetOkay(_, _, _) => OkayBooked(g, e, u);
    case GetClose(_, _, _) => ClseBooked(g, e, u);
    case GetWrite(_, _, _, _, _) => WriteBooked(g, e, u);
    case CanWrite(_, _) => WritableBooked(g, e, u);
    case CanRead(_, _) => ReadableBooked(g, e, u);
    case HangUp(s) => HangsUp(g, e, u);
    case _ =>
      if Runs.OnFront(e) {
        ClientBooked(g, e, u);
      } else if e.Unregister? || e.InputExits? {
        LeavingBooked(g, e, u);
      } else if e.GetSync? || e.GetConnect? {
        SessionBooked(g, e, u);
      } else {
        QuietBooked(g, e, u);
      }
  }

  lemma HangsUp(g: Graph, e: Runs.Event, u: Ref)
    requires Valid(g) && Runs.Can(g, e) && e.HangUp?
    ensures Booked(g, e, Runs.After(g, e), u)
  {
    hide Valid, Close, View, Booked;
    CloseBooked(g, e, e.s, u);
  }

  lemma QuietBooked(g: Graph, e: Runs.Event, u: Ref)
    requires Runs.Can(g, e) && (e.Register? || e.GetAuth? || e.GetHandshake?)
    ensures Booked(g, e, Runs.After(g, e), u)
  {
    hide View, Books, Quiet, Booked;
    PlainQuiet(g, e, u);
    SameViews(g, Runs.After(g, e), u);
    SameBooked(g, e, Runs.After(g, e), u);
  }

  // ---- every run ----

  function ReadOver(states: seq<Graph>, events: seq<Runs.Event>, n: nat, u: Ref): bytes
    requires n <= |events| <= |states|
  {
    if n == 0 then [] else ReadOver(states, events, n - 1, u) + ReadIn(states[n - 1], events[n - 1], u)
  }

  function WrittenOver(states: seq<Graph>, events: seq<Runs.Event>, n: nat, u: Ref): bytes
    requires n <= |events| <= |states|
  {
    if n == 0 then [] else WrittenOver(states, events, n - 1, u) + WrittenIn(states[n - 1], events[n - 1], u)
  }

  predicate FaultOver(states: seq<Graph>, events: seq<Runs.Event>, n: nat, u: Ref)
    requires n <= |events| <= |states|
  {
    exists i :: 0 <= i < n && FaultIn(states[i], events[i], u)
  }

  lemma BooksTrans(a: Spec.Sock, b: Spec.Sock, c: Spec.Sock, read: bytes, more: bytes, written: bytes, further: bytes,
                   one: bool, two: bool)
    requires Books(a, b, read, written, one) && Books(b, c, more, further, two)
    ensures Books(a, c, read + more, written + further, one || two)
  {
    hide Spec.Payload;
    var x, y := a.got, Spec.Payload(a.out);
    assert x + read + more == x + (read + more) && y + written + further == y + (written + further);
  }

  /**
   In every run of the process, whatever it starts from: what a socket has read is what its read calls gave while it
   had a far side, what it has written is what its write calls took, in the order of the events, and it has closed of
   its own accord exactly if one of the events made it.
   */
  lemma {:induction false} RunBooked(states: seq<Graph>, events: seq<Runs.Event>, n: nat, u: Ref)
    requires Safety.Run(states, events) && n <= |events|
    ensures Books(View(states[0], u), View(states[n], u),
                  ReadOver(states, events, n, u), WrittenOver(states, events, n, u), FaultOver(states, events, n, u))
  {
    hide Safety.Run, Runs.Good, Runs.Can, Runs.After, Books, View, ReadIn, WrittenIn, FaultIn;
    RunLength(states, events);
    if n == 0 {
      SameBooks(View(states[0], u), View(states[0], u));
    } else {
      var g, e := states[n - 1], events[n - 1];
      RunBooked(states, events, n - 1, u);
      Safety.RunGood(states, events, n - 1);
      Safety.StepAt(states, events, n - 1);
      EventBooked(g, e, u);
      BooksTrans(View(states[0], u), View(g, u), View(states[n], u),
                 ReadOver(states, events, n - 1, u), ReadIn(g, e, u),
                 WrittenOver(states, events, n - 1, u), WrittenIn(g, e, u),
                 FaultOver(states, events, n - 1, u), FaultIn(g, e, u));
    }
  }

  lemma RunLength(states: seq<Graph>, events: seq<Runs.Event>)
    requires Safety.Run(states, events)
    ensures |states| == |events| + 1
  {
  }
}
