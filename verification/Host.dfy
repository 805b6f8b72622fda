/**
 The engine of src/sockets.c and src/adb.c in the form it has there: lists, sockets, transports and
 listeners held in fields and changed in place, with the program's loops. `G()` is the state as the
 graph that `Graph`, `Handlers`, `Isolation` and `Forwards` reason about; every method is proved to
 change it exactly as they say.
 */
module Host {
  import opened Octets
  import Spec = SocketSpec
  import opened Calls
  import opened Lists
  import Net = Graph
  import opened Handlers
  import opened Isolation
  import opened Forwards
  import opened Listing
  import Runs
  import Safety

  type Ref = Net.Ref

  // ---- the descriptor loops ----

  /** The write loop of local_socket_enqueue: how far it gets, and how it ends. */
  method WriteSome(data: bytes, env: seq<Spec.WriteResult>) returns (done: nat, verdict: Spec.Verdict)
    ensures (done, verdict) == Spec.FirstWrite(data, env)
    ensures data[..done] == TakenFirst(data, env)
    ensures verdict == Ending(done == |data|, Stopper(env, StopsFirst))
  {
    FirstWriteIs(data, env);
    done := 0;
    var rest, todo := data, env;
    while rest != []
      invariant Spec.FirstWrite(data, env) == (done + Spec.FirstWrite(rest, todo).0, Spec.FirstWrite(rest, todo).1)
      decreases |todo|
    {
      if todo == [] { return done, Spec.Blocked; }
      match todo[0]
      case Wrote(n) =>
        var k := Spec.Clip(n, |rest|);
        done, rest, todo := done + k, rest[k..], todo[1..];
      case WriteAgain => return done, Spec.Blocked;
      case WriteIntr => return done, Spec.Broken;
      case WriteFail => return done, Spec.Broken;
    }
    return done, Spec.Drained;
  }

  /** The two write loops of local_socket_event_func, over the packets and within one. */
  method DrainBacklog(queue: seq<bytes>, env: seq<Spec.WriteResult>) returns (d: Spec.Drain)
    ensures d == Spec.DrainQueue(queue, env)
    ensures d.sent == TakenDrain(queue, env) && d.sent + Joined(d.rest) == Joined(queue)
    ensures d.verdict == Ending(d.sent == Joined(queue), Stopper(env, StopsDrain))
  {
    DrainQueueIs(queue, env);
    var sent: bytes, q, i := [], queue, 0;
    while q != []
      invariant i <= |env|
      invariant Spec.DrainQueue(queue, env) == Ahead(sent, Spec.DrainQueue(q, env[i..]))
      decreases |q|, |env| - i
    {
      if q[0] == [] {
        q := q[1..];
      } else {
        if i == |env| { return Spec.Drain(sent, q, Spec.Blocked); }
        assert env[i..][1..] == env[i + 1..];
        match env[i]
        case Wrote(n) =>
          var k := Spec.Clip(n, |q[0]|);
          AheadTwice(sent, q[0][..k], Spec.DrainQueue([q[0][k..]] + q[1..], env[i + 1..]));
          sent, q, i := sent + q[0][..k], [q[0][k..]] + q[1..], i + 1;
        case WriteAgain => return Spec.Drain(sent, q, Spec.Blocked);
        case WriteIntr => i := i + 1;
        case WriteFail => return Spec.Drain(sent, q, Spec.Broken);
      }
    }
    return Spec.Drain(sent, [], Spec.Drained);
  }

  function Ahead(sent: bytes, d: Spec.Drain): Spec.Drain {
    Spec.Drain(sent + d.sent, d.rest, d.verdict)
  }

  lemma AheadTwice(a: bytes, b: bytes, d: Spec.Drain)
    ensures Ahead(a, Ahead(b, d)) == Ahead(a + b, d)
  {
    assert a + (b + d.sent) == (a + b) + d.sent;
  }

  /** The read loop of local_socket_event_func: one packet at most, and whether the end was seen. */
  method ReadSome(env: seq<Spec.ReadResult>) returns (data: bytes, eof: bool)
    ensures (data, eof) == Spec.ReadUp(MAX_PAYLOAD, env)
    ensures data == Given(env) && (eof <==> SeesEnd(env))
  {
    ReadUpIs(MAX_PAYLOAD, env);
    data := [];
    var avail: nat, todo := MAX_PAYLOAD, env;
    assert After([], Spec.ReadUp(MAX_PAYLOAD, env)).0 == Spec.ReadUp(MAX_PAYLOAD, env).0;
    while avail > 0
      invariant Spec.ReadUp(MAX_PAYLOAD, env) == After(data, Spec.ReadUp(avail, todo))
      decreases |todo|
    {
      assert data + [] == data;
      if todo == [] { return data, false; }
      match todo[0]
      case GotBytes(d) =>
        if d == [] { return data, true; }
        var k := if |d| > avail then avail else |d|;
        AfterTwice(data, d[..k], Spec.ReadUp(avail - k, todo[1..]));
        data, avail, todo := data + d[..k], avail - k, todo[1..];
      case ReadAgain => return data, false;
      case ReadIntr => todo := todo[1..];
      case ReadEnd => return data, true;
    }
    assert data + [] == data;
    return data, false;
  }

  function After(data: bytes, r: (bytes, bool)): (bytes, bool) {
    (data + r.0, r.1)
  }

  lemma AfterTwice(a: bytes, b: bytes, r: (bytes, bool))
    ensures After(a, After(b, r)) == After(a + b, r)
  {
    assert a + (b + r.0) == (a + b) + r.0;
  }

  lemma UnlinkedStays(g: Net.Graph, s: Ref)
    requires Net.HasLink(g, s)
    ensures Net.HasLink(Net.Shutdown(g, s), s) && s in Net.Unlink(Net.Shutdown(g, s), s).locals
  {
    hide Without;
  }

  datatype ForwardReply = NotMine | BadSpec | NoTransport | NotRemoved | Refused(status: Status)
                        | Listing(text: string) | Fine

  /** How a request to forward `local` ends, and whether it goes through. */
  function PutReply(m: map<string, Target>, local: string, noRebind: bool, bound: bool): ForwardReply {
    if local !in m then (if bound then Fine else Refused(CannotBind))
    else if m[local].transport.None? then Refused(InternalError)
    else if noRebind then Refused(CannotRebind)
    else Fine
  }

  lemma GoodParts(g: Net.Graph)
    requires Runs.Good(g)
    ensures Net.Valid(g) && HasForwards(g) && Net.Forwarded(g)
  {
    hide Net.Listed, Net.Linked, Net.Sessions, Net.Ids, Net.Backed, Net.Online, HasForwards;
  }

  lemma PutParts(service: string)
    requires ParseForward(service).Put?
    ensures var r := ParseForward(service).remote; r != "" && r[0] != '*'
  {
  }

  /** Both halves of a descriptor event: the write half leaves the read half its turn if the backlog is gone. */
  function Halves(g: Net.Graph, s: Ref, write: bool, read: bool, wenv: seq<Spec.WriteResult>,
                  renv: seq<Spec.ReadResult>): Net.Graph
    requires s in g.locals
  {
    var h := if write then Writable(g, s, wenv) else g;
    if read && (write ==> Safety.DrainsOpen(g, s, wenv)) && s in h.locals then Readable(h, s, renv) else h
  }

  /** A socket whose backlog is gone stays as it is otherwise. */
  lemma DrainedStays(g: Net.Graph, s: Ref, env: seq<Spec.WriteResult>)
    requires s in g.locals && Safety.DrainsOpen(g, s, env)
    ensures s in Writable(g, s, env).locals && Writable(g, s, env).locals[s].wantRead == g.locals[s].wantRead
  {
    hide Spec.DrainQueue, Net.Close;
  }

  /** Names tell the listeners on a walk apart. */
  lemma NamedWalk(done: seq<Net.Listener>, rest: seq<Net.Listener>)
    requires Named(done + rest) && rest != []
    ensures rest[0] !in done && rest[0] !in rest[1..]
  {
    var all := done + rest;
    assert forall i :: 0 <= i < |done| ==> all[i] == done[i];
    assert forall i :: 0 <= i < |rest| ==> all[|done| + i] == rest[i];
  }

  lemma RemoveFirst(g: Net.Graph, ls: seq<Net.Listener>)
    requires ls != []
    ensures RemoveAll(g, ls) == RemoveAll(if Smart(ls[0]) then g else DropForward(g, ls[0].localName), ls[1..])
  {
    hide Smart, DropForward;
  }

  lemma RemoveNone(g: Net.Graph, ls: seq<Net.Listener>)
    requires ls == []
    ensures RemoveAll(g, ls) == g
  {
  }

  lemma DropTakes(g: Net.Graph, l: Net.Listener)
    requires Named(g.listeners) && l in g.listeners
    ensures DropForward(g, l.localName).listeners == Without(g.listeners, l)
  {
    hide Lookup, Without;
    LookupIn(g.listeners, l);
  }

  /** One round of remove_all_listeners. */
  lemma SweepOn(g: Net.Graph, kept: seq<Net.Listener>, rest: seq<Net.Listener>)
    requires g.listeners == kept + rest && Named(g.listeners) && rest != []
    ensures NextOf(g.listeners, rest[0]) == First(rest[1..])
    ensures var smart := Smart(rest[0]);
            var h := if smart then g else DropForward(g, rest[0].localName);
            && h.listeners == (if smart then kept + [rest[0]] else kept) + rest[1..] && Named(h.listeners)
            && RemoveAll(g, rest) == RemoveAll(h, rest[1..])
  {
    hide Smart, DropForward, NextOf, Without, RemoveAll, Named;
    NamedWalk(kept, rest);
    WalkOn(kept, rest);
    WalkWithout(kept, rest);
    RemoveFirst(g, rest);
    DropTakes(g, rest[0]);
    WithoutNames(g.listeners, rest[0]);
    assert kept + rest == kept + [rest[0]] + rest[1..];
  }

  /** One round of close_all_sockets. */
  lemma ListedOn(g: Net.Graph, t: Ref)
    ensures match FirstOn(g, g.active, t)
            case None => CloseListed(g, t) == g
            case Some(s) =>
              |Net.CloseLocked(g, s, true).active| < |g.active| ==>
                CloseListed(g, t) == CloseListed(Net.CloseLocked(g, s, true), t)
  {
    hide FirstOn, Net.CloseLocked;
  }

  lemma Sound(g: Net.Graph)
    requires Runs.Good(g)
    ensures Net.Valid(g) && Net.Core(g) && HasForwards(g)
  {
    hide Net.Core;
  }

  class Engine {
    var nextId: nat
    var issued: nat
    var nextRef: Ref
    var active: seq<Ref>
    var closing: seq<Ref>
    var locals: map<Ref, Net.Local>
    var remotes: map<Ref, Net.Remote>
    var transports: map<Ref, Net.Transport>
    var listeners: seq<Net.Listener>
    var past: map<Ref, Spec.Sock>
    var front: Net.Front

    constructor ()
      ensures G() == Runs.Boot && Runs.Good(G())
    {
      nextId, issued, nextRef, active, closing := 1, 0, 0, [], [];
      locals, remotes, transports, past := map[], map[], map[], map[];
      listeners := [Net.Listener("tcp:5037", "*smartsocket*", None)];
      front := Net.Front(map[], 0);
      new;
      Runs.BootGood();
    }

    function G(): Net.Graph
      reads this
    {
      Net.Graph(nextId, issued, nextRef, active, closing, locals, remotes, transports, listeners, past, front)
    }

    // ---- sockets ----

    /** find_local_socket: the walk stops at the first socket with the id, whether or not its peer fits. */
    method FindLocalSocket(id: nat, peer: nat) returns (r: Option<Ref>)
      ensures r == Find(G(), id, peer)
    {
      for i := 0 to |active|
        invariant FindIn(G(), active, id, peer) == FindIn(G(), active[i..], id, peer)
      {
        var s := active[i];
        assert active[i..][0] == s && active[i..][1..] == active[i + 1..];
        if s in locals && locals[s].id == id {
          var fits := peer == 0 || (locals[s].peer.Some? && locals[s].peer.value in remotes
                                    && remotes[locals[s].peer.value].id == peer);
          return if fits then Some(s) else None;
        }
      }
      return None;
    }

    /** install_local_socket: a 32-bit counter that skips 0. */
    method InstallLocalSocket() returns (s: Ref)
      requires nextId <= 0xffff_ffff
      modifies this
      ensures G() == Install(old(G())) && s == old(nextRef)
    {
      s := nextRef;
      var l := Net.Local(nextId, false, None, None, [], false, false, false, issued, [], [], false, false, false);
      locals := locals[s := l];
      nextId := (nextId + 1) % 0x1_0000_0000;
      if nextId == 0 { nextId := 1; }
      active := active + [s];
      nextRef, issued := nextRef + 1, issued + 1;
    }

    method SendPacket(t: Ref, w: Net.Wire)
      requires t in transports
      modifies `transports
      ensures G() == Net.SendOn(old(G()), t, w)
    {
      transports := transports[t := transports[t].(sent := transports[t].sent + [w])];
    }

    /** create_remote_socket, and the two peer pointers. */
    method LinkRemote(s: Ref, id: nat, t: Ref)
      requires s in locals && t in transports
      modifies this
      ensures G() == Link(old(G()), s, id, t)
    {
      var r := nextRef;
      nextRef := nextRef + 1;
      remotes := remotes[r := Net.Remote(id, s, t)];
      transports := transports[t := transports[t].(disconnects := transports[t].disconnects + [Net.OfSocket(r)])];
      locals := locals[s := locals[s].(peer := Some(r), ever := true)];
    }

    /** s->ready(s), with the OKAY the notify handler writes first. */
    method Ready(s: Ref)
      requires s in locals
      modifies `locals
      ensures G() == MakeReady(old(G()), s)
    {
      if locals[s].awaiting {
        locals := locals[s := locals[s].(awaiting := false, out := locals[s].out + [Spec.OkayStatus])];
      }
      locals := locals[s := locals[s].(wantRead := true)];
    }

    /** shutdown and close of the remote peer: CLOSE while both ids are known, then it is freed. */
    method DropPeer(s: Ref)
      requires Net.HasLink(G(), s)
      modifies this
      ensures Net.HasLink(Net.Shutdown(old(G()), s), s) && G() == Net.Unlink(Net.Shutdown(old(G()), s), s)
    {
      hide Without;
      var r := locals[s].peer.value;
      var t := remotes[r].transport;
      SendPacket(t, Net.Clse(locals[s].id, remotes[r].id));
      transports := transports[t := transports[t].(disconnects := Without(transports[t].disconnects, Net.OfSocket(r)))];
      remotes := remotes - {r};
      locals := locals[s := locals[s].(peer := None)];
    }

    /** local_socket_destroy. */
    method Destroy(s: Ref)
      requires s in locals
      modifies this
      ensures G() == Net.Bury(old(G()), s)
    {
      past := past[s := Net.AsSock(locals[s]).(phase := Spec.Gone, queue := [], wantRead := false, awaiting := false)];
      active, closing := Without(active, s), Without(closing, s);
      locals := locals - {s};
    }

    /** local_socket_close_locked. */
    method CloseLocked(s: Ref, fault: bool)
      requires s in locals
      modifies this
      ensures G() == Net.CloseLocked(old(G()), s, fault)
    {
      hide Without, Net.Unlink, Net.Shutdown, Net.Retire;
      if Net.HasLink(G(), s) {
        UnlinkedStays(G(), s);
        DropPeer(s);
      }
      Retire(s, fault);
    }

    /** A backlog is drained first, unless it already was. */
    method Retire(s: Ref, fault: bool)
      requires s in locals
      modifies this
      ensures G() == Net.Retire(old(G()), s, fault)
    {
      hide Without, Net.Bury, Net.Park;
      NoteFault(s, fault);
      if locals[s].closing || locals[s].queue == [] {
        Destroy(s);
      } else {
        MoveToClosing(s);
      }
    }

    method NoteFault(s: Ref, fault: bool)
      requires s in locals
      modifies this
      ensures G() == Net.Edit(old(G()), s, old(locals)[s].(fault := old(locals)[s].fault || fault))
    {
      locals := locals[s := locals[s].(fault := locals[s].fault || fault)];
    }

    /** Off the active list, and with id 0 at the end of the closing list. */
    method MoveToClosing(s: Ref)
      requires s in locals
      modifies this
      ensures G() == Net.Park(old(G()), s)
    {
      hide Without;
      active, closing := Without(active, s), closing + [s];
      locals := locals[s := locals[s].(closing := true, wantRead := false, awaiting := false, id := 0)];
    }

    /** s->close(s), with the failure status the notify handler writes first. */
    method CloseSocket(s: Ref, fault: bool)
      requires s in locals
      modifies this
      ensures G() == Net.Close(old(G()), s, fault)
    {
      if locals[s].awaiting {
        locals := locals[s := locals[s].(awaiting := false, out := locals[s].out + [Spec.FailStatus])];
      }
      CloseLocked(s, fault);
    }

    /** local_socket_enqueue; the result is whether the far side may go on sending. */
    method EnqueueLocal(s: Ref, data: bytes, env: seq<Spec.WriteResult>) returns (ready: bool)
      requires s in locals
      modifies this
      ensures (G(), ready) == Enqueue(old(G()), s, data, env)
    {
      if locals[s].queue != [] {
        locals := locals[s := locals[s].(queue := locals[s].queue + [data], wantWrite := true)];
        return false;
      }
      hide Spec.FirstWrite, Net.Close;
      var done, verdict := WriteSome(data, env);
      locals := locals[s := locals[s].(out := locals[s].out + [Spec.Chunk(data[..done])])];
      match verdict
      case Drained => return true;
      case Blocked =>
        locals := locals[s := locals[s].(queue := [data[done..]], wantWrite := true)];
        assert locals == old(locals)[s := locals[s]];
        return false;
      case Broken =>
        CloseSocket(s, true);
        return false;
    }

    /** The FDE_WRITE half of local_socket_event_func. */
    method WriteEvent(s: Ref, env: seq<Spec.WriteResult>) returns (goOn: bool)
      requires s in locals
      modifies this
      ensures G() == Writable(old(G()), s, env)
      ensures goOn == Safety.DrainsOpen(old(G()), s, env)
    {
      hide Spec.DrainQueue, Net.Close, Net.SendOn, Said, TakenDrain, Stopper, Joined;
      goOn := false;
      var d := DrainBacklog(locals[s].queue, env);
      var l := locals[s].(out := locals[s].out + [Spec.Chunk(d.sent)], queue := d.rest);
      locals := locals[s := l];
      match d.verdict
      case Blocked => return;
      case Broken => CloseSocket(s, true);
      case Drained =>
        if l.closing {
          CloseSocket(s, false);
        } else {
          goOn := true;
          locals := locals[s := l.(wantWrite := false)];
          assert locals == old(locals)[s := l.(wantWrite := false)];
          if Net.HasLink(G(), s) { PeerReady(s); }
        }
    }

    /** remote_socket_ready. */
    method PeerReady(s: Ref)
      requires Net.HasLink(G(), s)
      modifies `transports
      ensures G() == Net.SendOn(old(G()), Net.LinkOf(old(G()), s), Said(old(G()), s, Spec.MOkay))
    {
      SendPacket(remotes[locals[s].peer.value].transport, Net.Okay(locals[s].id, remotes[locals[s].peer.value].id));
    }

    /** The FDE_READ half. */
    method ReadEvent(s: Ref, env: seq<Spec.ReadResult>)
      requires s in locals
      modifies this
      ensures G() == Readable(old(G()), s, env)
    {
      hide Spec.ReadUp, Net.Close, Given, SeesEnd;
      var data, eof := ReadSome(env);
      if data != [] && Net.HasLink(G(), s) {
        SendPacket(Net.LinkOf(G(), s), Net.Write(locals[s].id, remotes[locals[s].peer.value].id, data));
        locals := locals[s := locals[s].(got := locals[s].got + data, wantRead := false)];
      }
      if eof { CloseSocket(s, true); }
    }

    /**
     local_socket_event_func: the write half, and then the read half unless the write half blocked or
     closed the socket.
     */
    method SocketEvent(s: Ref, write: bool, read: bool, wenv: seq<Spec.WriteResult>, renv: seq<Spec.ReadResult>)
      requires Runs.Good(G()) && s in locals
      requires (write ==> locals[s].wantWrite) && (read ==> Runs.MayRead(locals[s], renv))
      modifies this
      ensures Runs.Good(G())
      ensures G() == Halves(old(G()), s, write, read, wenv, renv)
    {
      hide Runs.Good, Runs.AllMove, Writable, Readable, Runs.FrontAfter, Runs.Tenures, Spec.ReadUp;
      if write {
        Runs.StepGood(G(), Runs.CanWrite(s, wenv));
        if Safety.DrainsOpen(G(), s, wenv) { DrainedStays(G(), s, wenv); }
        var goOn := WriteEvent(s, wenv);
        if !goOn { return; }
      }
      if read {
        Runs.StepGood(G(), Runs.CanRead(s, renv));
        ReadEvent(s, renv);
      }
    }

    /** A request is handed to a device: a new socket, and OPEN on its behalf. */
    method ConnectToRemote(t: Ref, awaiting: bool, dest: string) returns (s: Ref)
      requires t in transports && nextId <= 0xffff_ffff
      modifies this
      ensures G() == Runs.Dialled(old(G()), t, awaiting, dest) && s == old(nextRef)
    {
      var id := nextId;
      s := InstallLocalSocket();
      locals := locals[s := locals[s].(awaiting := awaiting, transport := Some(t))];
      SendPacket(t, Net.Open(id, 0, dest));
    }

    // ---- clients ----

    /** ss_listener_event_func and listener_event_func, for the listener of a name. */
    method AcceptClient(name: string, c: Ref)
      requires Runs.Good(G()) && Runs.Can(G(), Runs.Accept(name, c))
      modifies this
      ensures G() == Runs.After(old(G()), Runs.Accept(name, c)) && Runs.Good(G())
    {
      hide Runs.Good, Runs.AllMove, Runs.FrontAfter, Runs.Tenures, Runs.Dialled, Lookup, Smart;
      Runs.StepGood(G(), Runs.Accept(name, c));
      SmallIds(G());
      Sound(G());
      Safety.ListenerLives(G(), name);
      var r := FindListener(name);
      var l := r.value;
      if Smart(l) {
        front := front.(clients := front.clients[c := None]);
      } else {
        var _ := ConnectToRemote(l.transport.value, false, l.connectTo);
      }
    }

    /** host:transport, once a transport has been acquired. */
    method ChooseTransport(c: Ref, t: Ref)
      requires Runs.Good(G()) && Runs.Can(G(), Runs.Choose(c, t))
      modifies this
      ensures G() == Runs.After(old(G()), Runs.Choose(c, t)) && Runs.Good(G())
    {
      hide Runs.Good, Runs.AllMove, Runs.FrontAfter, Runs.Tenures;
      Runs.StepGood(G(), Runs.Choose(c, t));
      front := front.(clients := front.clients[c := Some(Net.Choice(t, transports[t].tenure.birth))]);
    }

    /**
     The end of smart_socket_enqueue: the pointer is tested for null and followed. That it leads to
     what was chosen is not tested; `Safety.RequestSafe` says when it does.
     */
    method Request(c: Ref, dest: string)
      requires Runs.Good(G()) && c in front.clients
      requires front.clients[c].Some? ==> Safety.LiveChoice(G(), front.clients[c].value)
      modifies this
      ensures G() == Runs.After(old(G()), Runs.Ask(c, dest)) && Runs.Good(G())
    {
      hide Runs.Good, Runs.AllMove, Runs.FrontAfter, Runs.Tenures, Runs.Dialled;
      Runs.StepGood(G(), Runs.Ask(c, dest));
      SmallIds(G());
      var k := front.clients[c];
      front := front.(clients := front.clients - {c});
      if k.None? || transports[k.value.transport].state == Net.Offline { return; }
      var _ := ConnectToRemote(k.value.transport, true, dest);
    }

    // ---- listeners ----

    method FindListener(name: string) returns (r: Option<Net.Listener>)
      ensures r == Lookup(listeners, name)
    {
      for i := 0 to |listeners|
        invariant Lookup(listeners, name) == Lookup(listeners[i..], name)
      {
        assert listeners[i..][0] == listeners[i] && listeners[i..][1..] == listeners[i + 1..];
        if listeners[i].localName == name { return Some(listeners[i]); }
      }
      return None;
    }

    /** free_listener, for the listener of a name. */
    method FreeListener(name: string)
      modifies this
      ensures G() == DropForward(old(G()), name)
    {
      hide Without, Lookup;
      var r := FindListener(name);
      if r.None? { return; }
      var l := r.value;
      listeners := Without(listeners, l);
      if l.transport.Some? && l.transport.value in transports {
        var t := l.transport.value;
        var ds := Without(transports[t].disconnects, Net.OfForward(name));
        transports := transports[t := transports[t].(disconnects := ds)];
      }
    }

    /** remove_listener. */
    method KillForward(name: string) returns (ok: bool)
      modifies this
      ensures (G(), ok) == RemoveListener(old(G()), name)
    {
      hide Lookup, DropForward;
      var r := FindListener(name);
      if r.None? {
        NothingDropped(G(), name);
        return false;
      }
      FreeListener(name);
      return true;
    }

    /**
     remove_all_listeners: a walk over the list as it is, with the next listener remembered before
     one is freed. A listener that goes takes exactly itself off the list.
     */
    method KillAllForwards()
      requires Named(listeners)
      modifies this
      ensures G() == RemoveAll(old(G()), old(listeners))
    {
      hide DropForward, Smart, NextOf, Without, RemoveAll;
      var l := First(listeners);
      ghost var kept, rest := [], listeners;
      while l.Some?
        invariant listeners == kept + rest && Named(listeners) && l == First(rest)
        invariant RemoveAll(old(G()), old(listeners)) == RemoveAll(G(), rest)
        decreases |rest|
      {
        SweepOn(G(), kept, rest);
        var next := NextOf(listeners, l.value);
        if Smart(l.value) {
          kept := kept + [l.value];
        } else {
          FreeListener(l.value.localName);
        }
        rest := rest[1..];
        l := next;
      }
      RemoveNone(G(), rest);
    }

    /** install_listener on transport t. */
    method AddForward(name: string, connectTo: string, t: Ref, noRebind: bool, bound: bool) returns (status: Status)
      requires t in transports
      modifies this
      ensures (G(), status) == InstallListener(old(G()), name, connectTo, t, noRebind, bound)
    {
      hide Lookup, Smart, Without;
      var r := FindListener(name);
      if r.Some? {
        if Smart(r.value) { return InternalError; }
        if noRebind { return CannotRebind; }
        Rebind(r.value, connectTo, t);
        return Done;
      }
      if !bound { return CannotBind; }
      listeners := listeners + [Net.Listener(name, connectTo, Some(t))];
      transports := transports[t := transports[t].(disconnects := transports[t].disconnects + [Net.OfForward(name)])];
      return Done;
    }

    /** An existing forward gets a new target and, if it must, a new transport. */
    method Rebind(l: Net.Listener, connectTo: string, t: Ref)
      requires t in transports
      modifies this
      ensures G() == Rebound(old(G()), l, connectTo, t)
    {
      hide Without;
      listeners := Replace(listeners, l, Net.Listener(l.localName, connectTo, Some(t)));
      if l.transport != Some(t) {
        if l.transport.Some? && l.transport.value in transports {
          var u := l.transport.value;
          var ds := Without(transports[u].disconnects, Net.OfForward(l.localName));
          transports := transports[u := transports[u].(disconnects := ds)];
        }
        var ds := transports[t].disconnects + [Net.OfForward(l.localName)];
        transports := transports[t := transports[t].(disconnects := ds)];
      }
    }

    /** list-forward: the size pass tells exactly how much the print pass writes. */
    method ListForwards(serials: map<Ref, string>) returns (reply: string)
      ensures reply == Lines(listeners, serials)
    {
      hide Lines, Room, FullAtLine;
      var size := FormatListeners(listeners, null, serials);
      var buffer := new char[size + 1];
      SizeSuffices(listeners, buffer.Length, serials);
      var _ := FormatListeners(listeners, buffer, serials);
      reply := buffer[..size];
    }

    method ForgetAll()
      requires Runs.Good(G())
      modifies this
      ensures Runs.Good(G()) && AsMap(listeners) == SmartOnly(AsMap(old(listeners)))
    {
      hide Net.Valid, Net.Forwarded, HasForwards, AsMap, Runs.AllMove, RemoveAll, SmartOnly, Runs.Born,
           Runs.Tenures, Runs.FrontAfter;
      GoodParts(G());
      Runs.StepGood(G(), Runs.KillAllForwards);
      NamesOf(G());
      RemoveAllMap(G());
      KillAllForwards();
    }

    method Forget(local: string, t: Ref) returns (ok: bool)
      requires Runs.Good(G()) && t in transports && Runs.Usable(transports[t].state)
      modifies this
      ensures Runs.Good(G()) && AsMap(listeners) == AsMap(old(listeners)) - {local}
      ensures ok <==> local in AsMap(old(listeners))
      ensures !ok ==> G() == old(G())
    {
      hide Net.Valid, Net.Forwarded, HasForwards, AsMap, Runs.AllMove, RemoveListener, Runs.Born, Runs.Tenures,
           Runs.FrontAfter;
      Runs.StepGood(G(), Runs.KillForward(local, t));
      RemoveIsDelete(G(), local);
      ok := KillForward(local);
    }

    method Remember(local: string, remote: string, t: Ref, noRebind: bool, bound: bool) returns (status: Status)
      requires Runs.Good(G()) && t in transports && Runs.Usable(transports[t].state) && remote != "" && remote[0] != '*'
      modifies this
      ensures Runs.Good(G())
      ensures var m := AsMap(old(listeners));
              && PutReply(m, local, noRebind, bound) == (if status.Done? then Fine else Refused(status))
              && AsMap(listeners) == if status.Done? then m[local := Target(remote, Some(t))] else m
      ensures !status.Done? ==> G() == old(G())
    {
      hide Net.Valid, Net.Forwarded, HasForwards, AsMap, SameSockets, InstallListener, Runs.AllMove, Runs.Born,
           Runs.Tenures, Runs.FrontAfter;
      Runs.StepGood(G(), Runs.AddForward(local, remote, t, noRebind, bound));
      Runs.UsableIsOnline(G(), t);
      InstallIsPut(G(), local, remote, t, noRebind, bound);
      status := AddForward(local, remote, t, noRebind, bound);
    }

    /**
     handle_forward_request, by the text of the service: on the map from local names, list-forward changes nothing,
     killforward-all keeps the smart sockets, killforward takes one name, forward is put and norebind
     put-if-absent. Any other service is not handled, and nothing changes unless the reply says so.
     */
    method HandleForward(service: string, transport: Option<Ref>, bound: bool, serials: map<Ref, string>)
      returns (reply: ForwardReply)
      requires Runs.Good(G())
      requires transport.Some? ==> transport.value in transports && Runs.Usable(transports[transport.value].state)
      modifies this
      ensures Runs.Good(G())
      ensures !reply.Fine? ==> G() == old(G())
      ensures service == "list-forward" ==> reply == Listing(Lines(listeners, serials))
      ensures service == "killforward-all" ==> reply == Fine && AsMap(listeners) == SmartOnly(AsMap(old(listeners)))
      ensures "killforward:" <= service ==>
                var name, m := service[12..], AsMap(old(listeners));
                && reply == (if name == "" then BadSpec else if transport.None? then NoTransport
                             else if name in m then Fine else NotRemoved)
                && (reply.Fine? ==> AsMap(listeners) == m - {name})
      ensures forall local, remote, noRebind :: AsksToForward(service, local, remote, noRebind) ==>
                var m := AsMap(old(listeners));
                && reply == (if transport.None? then NoTransport else PutReply(m, local, noRebind, bound))
                && (reply.Fine? ==> AsMap(listeners) == m[local := Target(remote, transport)])
      ensures reply == BadSpec <==> service == "killforward:" || ("forward:" <= service && !WellFormed(service))
      ensures reply == NotMine <==>
                && service != "list-forward" && service != "killforward-all"
                && !("forward:" <= service) && !("killforward:" <= service)
    {
      hide Runs.Good, AsMap, Lines, SmartOnly, ParseForward, AsksToForward, PutReply;
      RequestText(service);
      match ParseForward(service)
      case NotForward => return NotMine;
      case Malformed => return BadSpec;
      case ListAll =>
        var text := ListForwards(serials);
        return Listing(text);
      case KillAll =>
        ForgetAll();
        return Fine;
      case Kill(local) =>
        if transport.None? { return NoTransport; }
        var ok := Forget(local, transport.value);
        return if ok then Fine else NotRemoved;
      case Put(local, remote, noRebind) =>
        if transport.None? { return NoTransport; }
        PutParts(service);
        var status := Remember(local, remote, transport.value, noRebind, bound);
        return if status.Done? then Fine else Refused(status);
    }

    // ---- transports ----

    /** remote_socket_disconnect: the stream goes, and nothing is said to the far side. */
    method RemoteDisconnect(s: Ref)
      requires Net.HasLink(G(), s)
      modifies this
      ensures G() == Net.Disconnected(old(G()), s)
    {
      hide Without, Net.Close;
      var r := locals[s].peer.value;
      var t := remotes[r].transport;
      locals := locals[s := locals[s].(lost := true)];
      locals := locals[s := locals[s].(peer := None)];
      remotes := remotes - {r};
      transports := transports[t := transports[t].(disconnects := Without(transports[t].disconnects, Net.OfSocket(r)))];
      CloseSocket(s, true);
    }

    /**
     run_transport_disconnects: a walk over the list as it is, with the next entry remembered before
     a callback. A callback gets a live object and takes exactly its own entry off the list.
     */
    method RunDisconnects(t: Ref)
      requires Net.Core(G()) && t in transports
      modifies this
      ensures G() == RunAll(old(G()), old(transports)[t].disconnects)
      ensures t in transports && transports[t].disconnects == []
    {
      hide Net.Core, Net.Disconnected, DropForward, CallDisconnect, Away;
      var dis := First(transports[t].disconnects);
      while dis.Some?
        invariant Net.Core(G()) && t in transports && dis == First(transports[t].disconnects)
        invariant RunAll(old(G()), old(transports)[t].disconnects) == RunAll(G(), transports[t].disconnects)
        decreases |transports[t].disconnects|
      {
        ghost var g, ds := G(), transports[t].disconnects;
        CallHead(g, t);
        Safety.EntryLives(g, t, ds[0]);
        Safety.CallIs(g, ds[0]);
        var next := NextOf(transports[t].disconnects, dis.value);
        match dis.value {
          case OfForward(name) => FreeListener(name);
          case OfSocket(r) => RemoteDisconnect(remotes[r].peer);
        }
        assert transports[t].disconnects == ds[1..];
        dis := next;
      }
    }

    /** connection_state = CS_OFFLINE and handle_offline. */
    method TakeOffline(t: Ref)
      requires Net.Core(G()) && t in transports
      modifies this
      ensures G() == GoOffline(old(G()), t) && t in transports
    {
      hide Net.Core, RunAll;
      SetStateCore(G(), t, Net.Offline, false);
      transports := transports[t := transports[t].(state := Net.Offline, online := false)];
      RunDisconnects(t);
    }

    /** close_all_sockets: the walk starts again after every socket it closes, clients with a smart socket included. */
    method CloseAllSockets(t: Ref)
      modifies this
      ensures G() == CloseAll(old(G()), t)
    {
      hide Net.CloseLocked, FirstOn, CloseListed;
      var s := FirstOf(t);
      while s.Some?
        invariant CloseListed(G(), t) == CloseListed(old(G()), t) && s == FirstOn(G(), active, t)
        decreases |active|
      {
        ClosingShrinks(G(), s.value);
        ListedOn(G(), t);
        CloseLocked(s.value, true);
        s := FirstOf(t);
      }
      ListedOn(G(), t);
      ghost var g := G();
      while exists c :: c in front.clients && Chose(front.clients[c], t)
        invariant G() == g.(front := front) && front.born == g.front.born
        invariant Unchosen(front.clients, t) == Unchosen(g.front.clients, t)
        decreases |front.clients|
      {
        var c :| c in front.clients && Chose(front.clients[c], t);
        front := front.(clients := front.clients - {c});
      }
      assert Unchosen(front.clients, t) == front.clients;
    }

    /** The input thread has read its last packet. */
    method InputLeaves(t: Ref)
      requires Runs.Good(G()) && t in transports && !transports[t].tenure.left
      modifies this
      ensures G() == Runs.After(old(G()), Runs.InputExits(t)) && Runs.Good(G())
    {
      hide Runs.Good, Runs.AllMove, Runs.FrontAfter, Runs.Tenures, CloseListed;
      Runs.StepGood(G(), Runs.InputExits(t));
      Sound(G());
      CloseAllDoes(G(), t);
      CloseAllSockets(t);
      transports := transports[t := transports[t].(tenure := transports[t].tenure.(left := true))];
    }

    /** The removal message: the callbacks run, and the object is freed. */
    method RemoveTransport(t: Ref)
      requires Runs.Good(G()) && t in transports && transports[t].tenure.left
      modifies this
      ensures G() == Runs.After(old(G()), Runs.Unregister(t)) && Runs.Good(G())
    {
      hide Runs.Good, Runs.AllMove, Runs.FrontAfter, Runs.Tenures, RunAll;
      Runs.StepGood(G(), Runs.Unregister(t));
      Sound(G());
      RunDisconnects(t);
      transports := transports - {t};
    }

    /** The first active socket that waits for t or is linked over it. */
    method FirstOf(t: Ref) returns (r: Option<Ref>)
      ensures r == FirstOn(G(), active, t)
    {
      for i := 0 to |active|
        invariant FirstOn(G(), active, t) == FirstOn(G(), active[i..], t)
      {
        var s := active[i];
        assert active[i..][0] == s && active[i..][1..] == active[i + 1..];
        if s in locals && (locals[s].transport == Some(t) || OnLink(G(), s, t)) { return Some(s); }
      }
      return None;
    }

    // ---- packets ----

    /** OPEN. */
    method HandleOpen(t: Ref, from: nat, to: nat, accept: bool)
      requires t in transports && nextId <= 0xffff_ffff
      modifies this
      ensures G() == OnOpen(old(G()), t, from, to, accept)
    {
      hide Install, Link, MakeReady;
      if !transports[t].online || from == 0 || to != 0 { return; }
      if !accept {
        SendPacket(t, Net.Clse(0, from));
        return;
      }
      Installed(G());
      var id := nextId;
      var s := InstallLocalSocket();
      Ready(s);
      ReadyHere(Install(old(G())), s);
      LinkRemote(s, from, t);
      LinkHere(MakeReady(Install(old(G())), s), s, from, t);
      SendPacket(t, Net.Okay(id, from));
    }

    /** READY. */
    method HandleOkay(t: Ref, from: nat, to: nat)
      requires t in transports
      modifies this
      ensures G() == OnOkay(old(G()), t, from, to)
    {
      hide Link, MakeReady, FindIn;
      if !transports[t].online || from == 0 || to == 0 { return; }
      var r := FindLocalSocket(to, 0);
      if r.None? { return; }
      var s := r.value;
      ReadyHere(G(), s);
      if locals[s].peer.None? {
        Ready(s);
        LinkRemote(s, from, t);
      } else if PeerIs(G(), s, from) {
        Ready(s);
      }
    }

    /** CLOSE. */
    method HandleClose(t: Ref, from: nat, to: nat)
      requires t in transports
      modifies this
      ensures G() == OnClse(old(G()), t, from, to)
    {
      hide Net.Close, FindIn;
      if !transports[t].online || to == 0 { return; }
      var r := FindLocalSocket(to, from);
      if r.None? { return; }
      if from == 0 && Net.HasLink(G(), r.value) && Net.LinkOf(G(), r.value) != t { return; }
      CloseSocket(r.value, false);
    }

    /** WRITE. */
    method HandleWrite(t: Ref, from: nat, to: nat, data: bytes, env: seq<Spec.WriteResult>)
      requires Net.Valid(G()) && t in transports
      modifies this
      ensures G() == OnWrite(old(G()), t, from, to, data, env)
    {
      hide Enqueue, FindIn, Net.Valid;
      if !transports[t].online || from == 0 || to == 0 { return; }
      var r := FindLocalSocket(to, from);
      if r.None? { return; }
      Safety.WriteLives(G(), t, from, to, data, env);
      var id := locals[r.value].id;
      var ready := EnqueueLocal(r.value, data, env);
      if ready { SendPacket(t, Net.Okay(id, from)); }
    }

    /** SYNC is echoed, with CNXN behind it when the transport comes up, or after it has been purged. */
    method HandleSync(t: Ref, arg0: nat, token: nat)
      requires Net.Core(G()) && t in transports
      modifies this
      ensures G() == OnSync(old(G()), t, arg0, token)
    {
      hide GoOffline, Net.Core;
      if arg0 != 0 {
        SendPacket(t, Net.Sync(arg0, token));
        SendPacket(t, Net.Cnxn("host::"));
      } else {
        TakeOffline(t);
        SendPacket(t, Net.Sync(arg0, token));
      }
    }

    /** CNXN. */
    method HandleConnect(t: Ref, banner: string)
      requires Net.Core(G()) && t in transports
      modifies this
      ensures G() == OnCnxn(old(G()), t, banner)
    {
      hide GoOffline, BannerState, Net.Core;
      if transports[t].state != Net.Offline { TakeOffline(t); }
      transports := transports[t := transports[t].(state := BannerState(banner), online := true)];
    }

    /**
     handle_packet. `accept` is whether a service could be started, `env` what the descriptor takes,
     `reply` the answer to an authentication token. From a good state it leads to a good state.
     */
    method HandlePacket(t: Ref, w: Net.Wire, accept: bool, env: seq<Spec.WriteResult>, reply: Option<Net.Wire>)
      requires t in transports && Runs.Good(G()) && (reply.Some? ==> reply.value.Auth?)
      modifies this
      ensures G() == Runs.After(old(G()), Runs.PacketEvent(t, w, accept, env, reply))
      ensures Runs.Good(G())
    {
      hide Runs.Good, OnOpen, OnOkay, OnClse, OnWrite, OnSync, OnCnxn, Runs.AllMove, Net.Valid, Net.Core, Runs.Tenures,
           Runs.FrontAfter;
      Runs.StepGood(G(), Runs.PacketEvent(t, w, accept, env, reply));
      SmallIds(G());
      Sound(G());
      match w
      case Open(from, to, _) => HandleOpen(t, from, to, accept);
      case Okay(from, to) => HandleOkay(t, from, to);
      case Write(from, to, data) => HandleWrite(t, from, to, data, env);
      case Clse(from, to) => HandleClose(t, from, to);
      case Sync(online, token) => HandleSync(t, online, token);
      case Cnxn(banner) => HandleConnect(t, banner);
      case Auth(kind) =>
        if kind == 1 {
          transports := transports[t := transports[t].(state := Net.Unauthorized)];
          if reply.Some? { SendPacket(t, reply.value); }
        }
      case Hdsk(kind, _) => if kind == 1 { SendPacket(t, Net.Hdsk(2, "paxadb")); }
    }
  }

  lemma SmallIds(g: Net.Graph)
    requires Runs.Good(g)
    ensures g.nextId <= 0xffff_ffff
  {
    hide Net.Listed, Net.Linked, Net.Sessions, Net.Forwarded, Net.Backed, Net.Online, HasForwards;
  }

  lemma Installed(g: Net.Graph)
    ensures g.nextRef in Install(g).locals && Install(g).transports == g.transports
  {
  }

  lemma ReadyHere(g: Net.Graph, s: Ref)
    requires s in g.locals
    ensures s in MakeReady(g, s).locals && MakeReady(g, s).transports == g.transports
  {
  }

  lemma LinkHere(g: Net.Graph, s: Ref, id: nat, t: Ref)
    requires s in g.locals && t in g.transports
    ensures t in Link(g, s, id, t).transports
  {
  }

  lemma NothingDropped(g: Net.Graph, name: string)
    requires Lookup(g.listeners, name).None?
    ensures DropForward(g, name) == g
  {
  }

  lemma ClosingShrinks(g: Net.Graph, s: Ref)
    requires s in g.locals && s in g.active
    ensures |Net.CloseLocked(g, s, true).active| < |g.active|
  {
    CloseShrinks(g, s, true);
  }
}
