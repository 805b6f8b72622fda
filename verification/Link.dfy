/**
 Two endpoints that run the same protocol engine over one transport: any number of streams,
 opened from either side, share the two first-in first-out channels. Packets carry the ids of
 both sockets and are matched as handle_packet and find_local_socket match them.

 Every step of the pair is, for each stream, a step of the `Stream` machine or no step at all, so
 what `Stream` proves of one stream holds of all of them in every run.

 Sockets that have died stay in the map with their history. Ids are not reused: a run has issued
 fewer than 2^32 - 1 of them at either end (see Handlers.IdsDistinctInWindow).
 */
module Link {
  import opened Octets
  import opened Lists
  import opened SocketSpec
  import Stream

  datatype Entry = Entry(sock: Sock, peer: nat, server: bool)

  /** `served` records which local socket answered each OPEN of the other endpoint. */
  datatype Endpoint = Endpoint(next: nat, socks: map<nat, Entry>, served: map<nat, nat>)

  datatype Packet = Packet(from: nat, to: nat, msg: Msg)

  datatype System = System(a: Endpoint, b: Endpoint, ab: seq<Packet>, ba: seq<Packet>)

  function Flip(s: System): System {
    System(s.b, s.a, s.ba, s.ab)
  }

  const Start: System := System(Endpoint(1, map[], map[]), Endpoint(1, map[], map[]), [], [])

  function Address(from: nat, to: nat, msgs: seq<Msg>): (ps: seq<Packet>)
    ensures |ps| == |msgs|
  {
    seq(|msgs|, i requires 0 <= i < |msgs| => Packet(from, to, msgs[i]))
  }

  /** find_local_socket: active, and connected to `peer` unless that is 0. */
  predicate Found(e: Endpoint, id: nat, peer: nat) {
    && id in e.socks
    && Active(e.socks[id].sock)
    && (peer == 0 || (e.socks[id].sock.phase.Linked? && e.socks[id].peer == peer))
  }

  /** Socket k of endpoint a now has the given peer and reply; `take` removes the packet it heard. */
  function Touch(s: System, k: nat, peer: nat, r: Reply, take: bool): System
    requires k in s.a.socks && (take ==> s.ba != [])
  {
    System(s.a.(socks := s.a.socks[k := s.a.socks[k].(sock := r.sock, peer := peer)]), s.b,
           s.ab + Address(k, s.a.socks[k].peer, r.msgs),
           if take then s.ba[1..] else s.ba)
  }

  function Install(s: System, e: Entry, out: Packet, answers: bool): System {
    var k := s.a.next;
    System(Endpoint(k + 1, s.a.socks[k := e], if answers then s.a.served[e.peer := k] else s.a.served),
           s.b, s.ab + [out], s.ba)
  }

  datatype Event =
    | Dial(awaiting: bool)
    | Arrive(accept: bool, env: seq<WriteResult>)
    | Readable(id: nat, incoming: seq<ReadResult>)
    | Writable(id: nat, outgoing: seq<WriteResult>)
    | Abort(id: nat, notify: bool)
    | Lose(id: nat)

  datatype Step = Step(atA: bool, event: Event)

  predicate EnabledA(s: System, e: Event) {
    match e
    case Dial(_) => true
    case Arrive(_, _) => s.ba != []
    case Readable(k, _) =>
      k in s.a.socks && s.a.socks[k].sock.phase.Linked? && s.a.socks[k].sock.wantRead
    case Writable(k, _) => k in s.a.socks && s.a.socks[k].sock.queue != []
    case Abort(k, _) =>
      k in s.a.socks && (Active(s.a.socks[k].sock) || s.a.socks[k].sock.phase.Draining?)
    case Lose(k) => k in s.a.socks && s.a.socks[k].sock.phase.Linked?
  }

  /** handle_packet for the packets of streams, at endpoint a (src/adb.c:587-658). */
  function Handle(s: System, accept: bool, env: seq<WriteResult>): System
    requires s.ba != []
  {
    var p := s.ba[0];
    var t := s.(ba := s.ba[1..]);
    match p.msg
    case MOpen =>
      if p.from == 0 || p.to != 0 then t
      else if accept then Install(t, Entry(ServiceSock, p.from, true), Packet(s.a.next, p.from, MOkay), true)
      else t.(ab := t.ab + [Packet(0, p.from, MReject)])
    case MOkay =>
      if p.from == 0 || p.to == 0 || !Found(s.a, p.to, 0) then t
      else if s.a.socks[p.to].sock.phase.Connecting? || s.a.socks[p.to].peer == p.from then
        Touch(s, p.to, p.from, Reply(OnOkay(s.a.socks[p.to].sock), []), true)
      else t
    case MWrite(d) =>
      if p.from == 0 || p.to == 0 || !Found(s.a, p.to, p.from) then t
      else Touch(s, p.to, s.a.socks[p.to].peer, OnWrite(s.a.socks[p.to].sock, d, env), true)
    case _ =>
      if p.to == 0 || !Found(s.a, p.to, p.from) then t
      else Touch(s, p.to, s.a.socks[p.to].peer, Close(s.a.socks[p.to].sock, false), true)
  }

  function ApplyA(s: System, e: Event): System
    requires EnabledA(s, e)
  {
    match e
    case Dial(w) => Install(s, Entry(DialSock(w), 0, false), Packet(s.a.next, 0, MOpen), false)
    case Arrive(accept, env) => Handle(s, accept, env)
    case Readable(k, env) => Touch(s, k, s.a.socks[k].peer, OnReadable(s.a.socks[k].sock, env), false)
    case Writable(k, env) => Touch(s, k, s.a.socks[k].peer, OnWritable(s.a.socks[k].sock, env), false)
    case Abort(k, notify) =>
      var sock := s.a.socks[k].sock;
      Touch(s, k, s.a.socks[k].peer, if notify then Close(sock, true) else CloseLocked(sock, true), false)
    case Lose(k) => Touch(s, k, s.a.socks[k].peer, Reply(Lost(s.a.socks[k].sock), []), false)
  }

  predicate Enabled(s: System, st: Step) {
    if st.atA then EnabledA(s, st.event) else EnabledA(Flip(s), st.event)
  }

  function Apply(s: System, st: Step): System
    requires Enabled(s, st)
  {
    if st.atA then ApplyA(s, st.event) else Flip(ApplyA(Flip(s), st.event))
  }

  // ---- one stream of the pair ----

  function From(ps: seq<Packet>, id: nat): seq<Msg> {
    if ps == [] then []
    else (if ps[0].from == id then [ps[0].msg] else []) + From(ps[1..], id)
  }

  function To(ps: seq<Packet>, id: nat): seq<Msg> {
    if ps == [] then []
    else (if ps[0].to == id then [ps[0].msg] else []) + To(ps[1..], id)
  }

  predicate Opener(e: Endpoint, id: nat) {
    id in e.socks && !e.socks[id].server
  }

  function Answer(e: Endpoint, id: nat): Sock {
    if id in e.served && e.served[id] in e.socks then e.socks[e.served[id]].sock else FreshSock
  }

  function Own(e: Endpoint, id: nat): Sock {
    if id in e.socks then e.socks[id].sock else FreshSock
  }

  /** The stream that socket `id` of endpoint a opened. */
  function View(s: System, id: nat): Stream.Stream {
    Stream.Stream(Own(s.a, id), Answer(s.b, id), From(s.ab, id), To(s.ba, id))
  }

  lemma Assoc(x: seq<Msg>, y: seq<Msg>, z: seq<Msg>)
    ensures x + (y + z) == x + y + z
  {
  }

  lemma {:induction false} FromAppend(ps: seq<Packet>, qs: seq<Packet>, id: nat)
    ensures From(ps + qs, id) == From(ps, id) + From(qs, id)
  {
    if ps == [] {
      assert ps + qs == qs;
    } else {
      FromAppend(ps[1..], qs, id);
      assert (ps + qs)[1..] == ps[1..] + qs;
      Assoc(if ps[0].from == id then [ps[0].msg] else [], From(ps[1..], id), From(qs, id));
    }
  }

  lemma {:induction false} ToAppend(ps: seq<Packet>, qs: seq<Packet>, id: nat)
    ensures To(ps + qs, id) == To(ps, id) + To(qs, id)
  {
    if ps == [] {
      assert ps + qs == qs;
    } else {
      ToAppend(ps[1..], qs, id);
      assert (ps + qs)[1..] == ps[1..] + qs;
      Assoc(if ps[0].to == id then [ps[0].msg] else [], To(ps[1..], id), To(qs, id));
    }
  }

  lemma {:induction false} FromAddress(from: nat, to: nat, msgs: seq<Msg>, id: nat)
    ensures From(Address(from, to, msgs), id) == if from == id then msgs else []
    ensures To(Address(from, to, msgs), id) == if to == id then msgs else []
  {
    if msgs != [] {
      FromAddress(from, to, msgs[1..], id);
      assert Address(from, to, msgs)[1..] == Address(from, to, msgs[1..]);
    }
  }

  lemma {:induction false} NoneSent(ps: seq<Packet>, id: nat)
    ensures (forall i :: 0 <= i < |ps| ==> ps[i].from != id) ==> From(ps, id) == []
    ensures (forall i :: 0 <= i < |ps| ==> ps[i].to != id) ==> To(ps, id) == []
  {
    if ps != [] {
      NoneSent(ps[1..], id);
      assert forall i :: 0 <= i < |ps[1..]| ==> ps[1..][i] == ps[i + 1];
    }
  }

  // ---- how ids fit together ----

  ghost predicate Packets(s: System) {
    forall i :: 0 <= i < |s.ab| ==> Fits(s, s.ab[i])
  }

  /** A packet from endpoint a names the two sockets of one stream. */
  ghost predicate Fits(s: System, p: Packet) {
    match p.msg
    case MOpen => p.to == 0 && Opener(s.a, p.from)
    case MReject => p.from == 0 && Opener(s.b, p.to)
    case _ =>
      && p.from in s.a.socks
      && p.to in s.b.socks
      && (if s.a.socks[p.from].server then s.a.socks[p.from].peer == p.to && Opener(s.b, p.to)
          else p.from in s.b.served && s.b.served[p.from] == p.to)
  }

  ghost predicate Range(s: System) {
    && 0 < s.a.next
    && (forall i :: i in s.a.socks ==> 0 < i < s.a.next && !s.a.socks[i].sock.phase.Fresh?)
  }

  /** A socket that answers an OPEN is recorded under its opener. */
  ghost predicate Servers(s: System) {
    forall i :: i in s.a.socks && s.a.socks[i].server ==>
      var x := s.a.socks[i].peer;
      Opener(s.b, x) && x in s.a.served && s.a.served[x] == i
      && !s.a.socks[i].sock.phase.Connecting? && s.a.socks[i].sock.ever
  }

  ghost predicate Served(s: System) {
    forall x :: x in s.a.served ==>
      var i := s.a.served[x]; i in s.a.socks && s.a.socks[i].server && s.a.socks[i].peer == x && Opener(s.b, x)
  }

  /** A linked opener is linked to the socket that answered it. */
  ghost predicate Openers(s: System) {
    forall i :: Opener(s.a, i) && s.a.socks[i].sock.phase.Linked? ==>
      i in s.b.served && s.b.served[i] == s.a.socks[i].peer
  }

  ghost predicate Ids(s: System) {
    Range(s) && Servers(s) && Served(s) && Openers(s)
  }

  ghost predicate Wired(s: System) {
    Ids(s) && Ids(Flip(s)) && Packets(s) && Packets(Flip(s))
  }

  ghost predicate Streams(s: System) {
    && (forall i :: Opener(s.a, i) ==> Stream.Inv(View(s, i)))
    && (forall j :: Opener(s.b, j) ==> Stream.Inv(View(Flip(s), j)))
  }

  ghost predicate Inv(s: System) {
    Wired(s) && Streams(s)
  }

  // ---- a socket that exists acts ----

  /** What every handler leaves behind when it acts on socket k. */
  predicate Proper(s: System, k: nat, peer: nat, r: Reply, take: bool) {
    && k in s.a.socks
    && (take ==> s.ba != [] && s.ba[0].to == k)
    && !r.sock.phase.Fresh?
    && (s.a.socks[k].server ==> !r.sock.phase.Connecting? && r.sock.ever)
    && (r.msgs != [] ==> s.a.socks[k].sock.phase.Linked?)
    && (forall i :: 0 <= i < |r.msgs| ==> !r.msgs[i].MOpen? && !r.msgs[i].MReject?)
    && (s.a.socks[k].server || s.a.socks[k].sock.phase.Linked? ==> peer == s.a.socks[k].peer)
    && (r.sock.phase.Linked? && !s.a.socks[k].server ==> k in s.b.served && s.b.served[k] == peer)
  }

  lemma TouchIds(s: System, k: nat, peer: nat, r: Reply, take: bool)
    requires Ids(s) && Proper(s, k, peer, r, take)
    ensures Ids(Touch(s, k, peer, r, take))
  {
    var t := Touch(s, k, peer, r, take);
    assert Range(t) by { hide Servers, Served, Openers; }
    assert Servers(t) by { hide Range, Served, Openers; }
    assert Served(t) by { hide Range, Servers, Openers; }
    assert Openers(t) by { hide Range, Servers, Served; }
    hide Range, Servers, Served, Openers;
  }

  lemma TouchIdsBack(s: System, k: nat, peer: nat, r: Reply, take: bool)
    requires Ids(s) && Ids(Flip(s)) && Proper(s, k, peer, r, take)
    ensures Ids(Flip(Touch(s, k, peer, r, take)))
  {
  }

  lemma TouchPackets(s: System, k: nat, peer: nat, r: Reply, take: bool)
    requires Wired(s) && Proper(s, k, peer, r, take)
    ensures Packets(Touch(s, k, peer, r, take))
  {
    var t := Touch(s, k, peer, r, take);
    forall i | 0 <= i < |t.ab| ensures Fits(t, t.ab[i]) {
      if i < |s.ab| {
        assert Fits(s, s.ab[i]);
      }
    }
  }

  lemma TouchPacketsBack(s: System, k: nat, peer: nat, r: Reply, take: bool)
    requires Wired(s) && Proper(s, k, peer, r, take)
    ensures Packets(Flip(Touch(s, k, peer, r, take)))
  {
    var t := Flip(Touch(s, k, peer, r, take));
    forall i | 0 <= i < |t.ab| ensures Fits(t, t.ab[i]) {
      assert Fits(Flip(s), s.ba[if take then i + 1 else i]);
    }
  }

  /** Another stream that endpoint a opened does not move. */
  lemma TouchElsewhere(s: System, k: nat, peer: nat, r: Reply, take: bool, i: nat)
    requires Wired(s) && Proper(s, k, peer, r, take) && Opener(s.a, i) && i != k
    ensures View(Touch(s, k, peer, r, take), i) == View(s, i)
  {
    hide Wired, Address;
    var out := Address(k, s.a.socks[k].peer, r.msgs);
    FromAppend(s.ab, out, i);
    FromAddress(k, s.a.socks[k].peer, r.msgs, i);
  }

  /** The stream opened by the acting socket moves as `Stream` says. */
  lemma TouchHere(s: System, k: nat, peer: nat, r: Reply, take: bool)
    requires Wired(s) && Proper(s, k, peer, r, take) && Opener(s.a, k)
    ensures take ==> View(s, k).ba != [] && View(s, k).ba[0] == s.ba[0].msg
    ensures var v := View(s, k);
            View(Touch(s, k, peer, r, take), k)
            == Stream.Sent(if take then v.(ba := v.ba[1..]) else v, r)
  {
    var out := Address(k, s.a.socks[k].peer, r.msgs);
    FromAppend(s.ab, out, k);
    FromAddress(k, s.a.socks[k].peer, r.msgs, k);
  }

  /** The acting socket does not speak to, or hear from, a stream it is not part of. */
  lemma NotAbout(s: System, k: nat, j: nat, take: bool)
    requires Wired(s) && k in s.a.socks && Opener(s.b, j)
    requires !(s.a.socks[k].server && s.a.socks[k].peer == j)
    ensures s.a.socks[k].sock.phase.Linked? ==> s.a.socks[k].peer != j
    ensures s.ba != [] && s.ba[0].to == k ==> s.ba[0].from != j
    ensures j in s.a.served ==> s.a.served[j] != k
  {
    if s.ba != [] {
      assert Fits(Flip(s), s.ba[0]);
    }
    hide Packets;
  }

  /** Streams opened at b that the acting socket does not serve do not move. */
  lemma TouchElsewhereBack(s: System, k: nat, peer: nat, r: Reply, take: bool, j: nat)
    requires Wired(s) && Proper(s, k, peer, r, take) && Opener(s.b, j)
    requires !(s.a.socks[k].server && s.a.socks[k].peer == j)
    ensures View(Flip(Touch(s, k, peer, r, take)), j) == View(Flip(s), j)
  {
    hide Wired, Address;
    NotAbout(s, k, j, take);
    assert r.msgs != [] ==> s.a.socks[k].peer != j;
    hide Proper;
    var out := Address(k, s.a.socks[k].peer, r.msgs);
    ToAppend(s.ab, out, j);
    FromAddress(k, s.a.socks[k].peer, r.msgs, j);
  }

  /** The stream opened at b and served by the acting socket moves as `Stream` says, at its far end. */
  lemma TouchHereBack(s: System, k: nat, peer: nat, r: Reply, take: bool)
    requires Wired(s) && Proper(s, k, peer, r, take) && s.a.socks[k].server
    ensures var j := s.a.socks[k].peer;
            take ==> View(Flip(s), j).ab != [] && View(Flip(s), j).ab[0] == s.ba[0].msg
    ensures var j := s.a.socks[k].peer;
            var v := Stream.Flip(View(Flip(s), j));
            View(Flip(Touch(s, k, peer, r, take)), j)
            == Stream.Flip(Stream.Sent(if take then v.(ba := v.ba[1..]) else v, r))
  {
    var j := s.a.socks[k].peer;
    var out := Address(k, j, r.msgs);
    ToAppend(s.ab, out, j);
    FromAddress(k, j, r.msgs, j);
    if take {
      assert Fits(Flip(s), s.ba[0]);
    }
  }

  lemma TouchWired(s: System, k: nat, peer: nat, r: Reply, take: bool)
    requires Wired(s) && Proper(s, k, peer, r, take)
    ensures Wired(Touch(s, k, peer, r, take))
  {
    TouchIds(s, k, peer, r, take);
    TouchIdsBack(s, k, peer, r, take);
    TouchPackets(s, k, peer, r, take);
    TouchPacketsBack(s, k, peer, r, take);
    hide Ids, Packets;
  }

  /** The stream that socket k belongs to, with k at its end a. */
  function Around(s: System, k: nat): Stream.Stream
    requires k in s.a.socks
  {
    if s.a.socks[k].server then Stream.Flip(View(Flip(s), s.a.socks[k].peer)) else View(s, k)
  }

  /** The acting socket's stream takes event e; all others stand still; so all keep their invariant. */
  lemma TouchStreams(s: System, k: nat, peer: nat, r: Reply, take: bool, e: Stream.Event)
    requires Inv(s) && Proper(s, k, peer, r, take)
    requires Stream.EnabledA(Around(s, k), e)
    requires var v := Around(s, k);
             (take ==> v.ba != []) &&
             Stream.ApplyA(v, e) == Stream.Sent(if take then v.(ba := v.ba[1..]) else v, r)
    ensures Streams(Touch(s, k, peer, r, take))
  {
    hide Stream.Inv, Stream.EnabledA, Stream.ApplyA;
    var t := Touch(s, k, peer, r, take);
    forall i | Opener(t.a, i) ensures Stream.Inv(View(t, i)) {
      if i == k {
        TouchHere(s, k, peer, r, take);
        Stream.StepKeepsA(View(s, k), e);
      } else {
        TouchElsewhere(s, k, peer, r, take, i);
      }
    }
    forall j | Opener(t.b, j) ensures Stream.Inv(View(Flip(t), j)) {
      if s.a.socks[k].server && s.a.socks[k].peer == j {
        TouchHereBack(s, k, peer, r, take);
        Stream.FlipInv(View(Flip(s), j));
        Stream.StepKeepsA(Around(s, k), e);
        Stream.FlipInv(Stream.ApplyA(Around(s, k), e));
      } else {
        TouchElsewhereBack(s, k, peer, r, take, j);
      }
    }
  }

  // ---- events on descriptors ----

  function Local(e: Event): Stream.Event
    requires !e.Arrive? && !e.Dial?
  {
    match e
    case Readable(_, env) => Stream.Readable(env)
    case Writable(_, env) => Stream.Writable(env)
    case Abort(_, notify) => Stream.Abort(notify)
    case Lose(_) => Stream.Lose
  }

  function Answered(sock: Sock, e: Event): Reply
    requires !e.Arrive? && !e.Dial?
  {
    match e
    case Readable(_, env) => OnReadable(sock, env)
    case Writable(_, env) => OnWritable(sock, env)
    case Abort(_, notify) => if notify then Close(sock, true) else CloseLocked(sock, true)
    case Lose(_) => Reply(Lost(sock), [])
  }

  lemma AroundA(s: System, k: nat)
    requires Wired(s) && k in s.a.socks
    ensures Around(s, k).a == s.a.socks[k].sock
  {
  }

  lemma AroundSane(s: System, k: nat)
    requires Inv(s) && k in s.a.socks
    ensures Stream.Inv(Around(s, k)) && Stream.Sane(s.a.socks[k].sock)
  {
    AroundA(s, k);
    if s.a.socks[k].server {
      Stream.FlipInv(View(Flip(s), s.a.socks[k].peer));
    }
  }

  /** What a handler's reply may look like: it speaks only while linked, and never opens or rejects. */
  predicate Tidy(sock: Sock, r: Reply) {
    && !r.sock.phase.Fresh?
    && (r.sock.phase.Connecting? ==> sock.phase.Connecting?)
    && (sock.ever ==> r.sock.ever)
    && (r.sock.phase.Linked? ==> sock.phase.Linked? || sock.phase.Connecting?)
    && (r.msgs != [] ==> sock.phase.Linked?)
    && (forall i :: 0 <= i < |r.msgs| ==> !r.msgs[i].MOpen? && !r.msgs[i].MReject?)
  }

  lemma EventTidy(sock: Sock, e: Event)
    requires !e.Arrive? && !e.Dial? && Stream.Sane(sock) && !sock.phase.Fresh?
    requires e.Readable? ==> sock.phase.Linked?
    requires e.Writable? ==> sock.queue != []
    ensures Tidy(sock, Answered(sock, e))
    ensures Answered(sock, e).sock.phase.Linked? ==> sock.phase.Linked?
  {
    hide Tidy, Stream.Sane, OnReadable, OnWritable, Close, CloseLocked, Lost;
    if e.Readable? {
      ReadableTidy(sock, e.incoming);
    } else if e.Writable? {
      WritableTidy(sock, e.outgoing);
    } else {
      CloseTidy(sock, true);
    }
  }

  predicate Tidier(sock: Sock, r: Reply) {
    Tidy(sock, r) && !r.sock.phase.Linked? && !r.sock.phase.Connecting?
  }

  lemma LockedTidy(sock: Sock, fault: bool)
    requires !sock.phase.Fresh?
    ensures Tidier(sock, CloseLocked(sock, fault))
  {
  }

  lemma CloseTidy(sock: Sock, fault: bool)
    requires !sock.phase.Fresh?
    ensures Tidier(sock, Close(sock, fault)) && Tidier(sock, CloseLocked(sock, fault))
    ensures Tidier(sock, Reply(Lost(sock), []))
  {
    hide CloseLocked;
    LockedTidy(sock, fault);
    LockedTidy(sock.(out := sock.out + [FailStatus]), fault);
    LockedTidy(sock.(lost := true), true);
  }

  lemma ReadableTidy(sock: Sock, env: seq<ReadResult>)
    requires sock.phase.Linked?
    ensures Tidy(sock, OnReadable(sock, env))
  {
    hide ReadUp, Close;
    var r := ReadUp(MAX_PAYLOAD, env);
    var t := if r.0 == [] then sock else sock.(got := sock.got + r.0, wantRead := false);
    CloseTidy(t, true);
  }

  lemma WritableTidy(sock: Sock, env: seq<WriteResult>)
    requires Stream.Sane(sock) && !sock.phase.Fresh? && sock.queue != []
    ensures Tidy(sock, OnWritable(sock, env)) && (OnWritable(sock, env).sock.phase.Linked? ==> sock.phase.Linked?)
  {
    hide DrainQueue, Close;
    var d := DrainQueue(sock.queue, env);
    var t := sock.(out := sock.out + [Chunk(d.sent)], queue := d.rest);
    CloseTidy(t, true);
    CloseTidy(t, false);
  }

  lemma ReceiveTidy(sock: Sock, m: Msg, accept: bool, env: seq<WriteResult>)
    requires Stream.Sane(sock) && !sock.phase.Fresh?
    ensures Tidy(sock, Receive(sock, m, accept, env))
    ensures Receive(sock, m, accept, env).sock.phase.Linked? && sock.phase.Connecting? ==> m.MOkay?
  {
  }

  lemma EventProper(s: System, e: Event)
    requires Inv(s) && EnabledA(s, e) && !e.Arrive? && !e.Dial?
    ensures Proper(s, e.id, s.a.socks[e.id].peer, Answered(s.a.socks[e.id].sock, e), false)
  {
    AroundSane(s, e.id);
    EventTidy(s.a.socks[e.id].sock, e);
    hide Streams, Answered, Packets, Stream.Sane;
  }

  lemma EventMoves(v: Stream.Stream, e: Event)
    requires !e.Arrive? && !e.Dial? && Stream.EnabledA(v, Local(e))
    ensures Stream.ApplyA(v, Local(e)) == Stream.Sent(v, Answered(v.a, e))
  {
  }

  lemma EventKeeps(s: System, e: Event)
    requires Inv(s) && EnabledA(s, e) && !e.Arrive? && !e.Dial?
    ensures Inv(ApplyA(s, e))
  {
    var k := e.id;
    var sock := s.a.socks[k].sock;
    EventProper(s, e);
    AroundA(s, k);
    hide Wired, Streams, Around, Proper;
    EventMoves(Around(s, k), e);
    var r := Answered(sock, e);
    TouchStreams(s, k, s.a.socks[k].peer, r, false, Local(e));
    TouchWired(s, k, s.a.socks[k].peer, r, false);
  }

  // ---- packets ----

  /** The packet at the head of the channel heads the channel of its own stream. */
  lemma HeadAround(s: System)
    requires Wired(s) && s.ba != [] && s.ba[0].to in s.a.socks
    ensures var v := Around(s, s.ba[0].to); v.ba != [] && v.ba[0] == s.ba[0].msg
  {
    assert Fits(Flip(s), s.ba[0]);
  }

  /** The packet at the head names a socket that exists, and the peer that socket expects. */
  predicate Named(s: System)
  {
    && s.ba != []
    && var p := s.ba[0];
    && 0 < p.to && p.to in s.a.socks
    && var sock := s.a.socks[p.to].sock;
    && !p.msg.MOpen? && (p.msg.MReject? <==> p.from == 0)
    && !sock.phase.Fresh?
    && (sock.phase.Connecting? ==> p.msg.MOkay? || p.msg.MReject?)
    && (sock.phase.Linked? && !p.msg.MReject? ==> p.from == s.a.socks[p.to].peer)
  }

  lemma HeadNamed(s: System)
    requires Inv(s) && s.ba != [] && !s.ba[0].msg.MOpen?
    ensures Named(s)
  {
    assert Fits(Flip(s), s.ba[0]);
    AroundSane(s, s.ba[0].to);
    AroundA(s, s.ba[0].to);
    HeadAround(s);
    hide Packets, Streams, Around;
  }

  /** A packet for a socket does what `Receive` says, found or not. */
  lemma HandleIsReceive(s: System, accept: bool, env: seq<WriteResult>)
    requires Named(s)
    ensures var p := s.ba[0];
            var sock := s.a.socks[p.to].sock;
            var peer := if p.msg.MOkay? && sock.phase.Connecting? then p.from else s.a.socks[p.to].peer;
            Handle(s, accept, env) == Touch(s, p.to, peer, Receive(sock, p.msg, accept, env), true)
  {
    var p := s.ba[0];
    assert s.ab + Address(p.to, s.a.socks[p.to].peer, []) == s.ab;
    assert s.a.socks[p.to := s.a.socks[p.to]] == s.a.socks;
    hide OnOkay, OnWrite, Close;
  }

  lemma HandleProper(s: System, accept: bool, env: seq<WriteResult>)
    requires Inv(s) && s.ba != [] && !s.ba[0].msg.MOpen?
    ensures s.ba[0].to in s.a.socks
    ensures var p := s.ba[0];
            var sock := s.a.socks[p.to].sock;
            var peer := if p.msg.MOkay? && sock.phase.Connecting? then p.from else s.a.socks[p.to].peer;
            Proper(s, p.to, peer, Receive(sock, p.msg, accept, env), true)
  {
    var p := s.ba[0];
    assert Fits(Flip(s), p);
    var sock := s.a.socks[p.to].sock;
    AroundSane(s, p.to);
    ReceiveTidy(sock, p.msg, accept, env);
    hide Packets, Streams, Stream.Sane, Receive;
  }

  lemma PacketKeeps(s: System, accept: bool, env: seq<WriteResult>)
    requires Inv(s) && s.ba != [] && !s.ba[0].msg.MOpen?
    ensures Inv(Handle(s, accept, env))
  {
    HeadNamed(s);
    HandleIsReceive(s, accept, env);
    HandleProper(s, accept, env);
    var p := s.ba[0];
    var sock := s.a.socks[p.to].sock;
    var peer := if p.msg.MOkay? && sock.phase.Connecting? then p.from else s.a.socks[p.to].peer;
    var r := Receive(sock, p.msg, accept, env);
    AroundA(s, p.to);
    HeadAround(s);
    hide Wired, Streams, Around, Receive, Handle, Touch, Proper;
    TouchStreams(s, p.to, peer, r, true, Stream.Arrive(accept, env));
    TouchWired(s, p.to, peer, r, true);
  }

  // ---- new sockets ----

  /** What a new socket and its first packet look like: dialling, or answering an OPEN. */
  predicate Newcomer(s: System, e: Entry, out: Packet) {
    && out.from == s.a.next
    && (if e.server then
          && e.sock == ServiceSock && Opener(s.b, e.peer) && e.peer !in s.a.served
          && out.to == e.peer && out.msg == MOkay
        else e.sock.phase.Connecting? && out.to == 0 && out.msg == MOpen)
  }

  lemma InstallIds(s: System, e: Entry, out: Packet)
    requires Ids(s) && Ids(Flip(s)) && Newcomer(s, e, out)
    ensures Ids(Install(s, e, out, e.server))
  {
    hide Range, Servers, Served, Openers, Newcomer;
    InstallRange(s, e, out);
    InstallServers(s, e, out);
    InstallServed(s, e, out);
    InstallOpeners(s, e, out);
  }

  lemma InstallRange(s: System, e: Entry, out: Packet)
    requires Range(s) && Newcomer(s, e, out)
    ensures Range(Install(s, e, out, e.server))
  {
  }

  lemma InstallServers(s: System, e: Entry, out: Packet)
    requires Range(s) && Servers(s) && Newcomer(s, e, out)
    ensures Servers(Install(s, e, out, e.server))
  {
  }

  lemma InstallServed(s: System, e: Entry, out: Packet)
    requires Range(s) && Served(s) && Newcomer(s, e, out)
    ensures Served(Install(s, e, out, e.server))
  {
  }

  lemma InstallOpeners(s: System, e: Entry, out: Packet)
    requires Range(s) && Openers(s) && Newcomer(s, e, out)
    ensures Openers(Install(s, e, out, e.server))
  {
  }

  lemma InstallIdsBack(s: System, e: Entry, out: Packet)
    requires Ids(s) && Ids(Flip(s)) && Newcomer(s, e, out)
    ensures Ids(Flip(Install(s, e, out, e.server)))
  {
  }

  lemma InstallPackets(s: System, e: Entry, out: Packet)
    requires Wired(s) && Newcomer(s, e, out)
    ensures Packets(Install(s, e, out, e.server)) && Packets(Flip(Install(s, e, out, e.server)))
  {
    var t := Install(s, e, out, e.server);
    forall i | 0 <= i < |t.ab| ensures Fits(t, t.ab[i]) {
      if i < |s.ab| { assert Fits(s, s.ab[i]); }
    }
    forall i | 0 <= i < |t.ba| ensures Fits(Flip(t), t.ba[i]) {
      assert Fits(Flip(s), s.ba[i]);
    }
  }

  lemma InstallWired(s: System, e: Entry, out: Packet)
    requires Wired(s) && Newcomer(s, e, out)
    ensures Wired(Install(s, e, out, e.server))
  {
    InstallIds(s, e, out);
    InstallIdsBack(s, e, out);
    InstallPackets(s, e, out);
    hide Ids, Packets;
  }

  lemma OneSent(p: Packet, id: nat)
    ensures From([p], id) == if p.from == id then [p.msg] else []
    ensures To([p], id) == if p.to == id then [p.msg] else []
  {
    assert [p][1..] == [];
  }

  /** No stream but the newcomer's own moves. */
  lemma InstallViews(s: System, e: Entry, out: Packet, i: nat)
    requires Wired(s) && Newcomer(s, e, out)
    ensures Opener(s.a, i) ==> View(Install(s, e, out, e.server), i) == View(s, i)
    ensures Opener(s.b, i) && !(e.server && e.peer == i) ==>
              View(Flip(Install(s, e, out, e.server)), i) == View(Flip(s), i)
  {
    FromAppend(s.ab, [out], i);
    ToAppend(s.ab, [out], i);
    OneSent(out, i);
    hide Packets, From, To;
  }

  /** No packet and no answer is about an id that is still to be given. */
  lemma NextUnused(s: System)
    requires Wired(s)
    ensures s.a.next !in s.a.socks && s.a.next !in s.b.served
    ensures From(s.ab, s.a.next) == [] && To(s.ba, s.a.next) == []
  {
    var k := s.a.next;
    assert forall i :: 0 <= i < |s.ab| ==> Fits(s, s.ab[i]) && s.ab[i].from != k;
    assert forall i :: 0 <= i < |s.ba| ==> Fits(Flip(s), s.ba[i]) && s.ba[i].to != k;
    NoneSent(s.ab, k);
    NoneSent(s.ba, k);
  }

  lemma DialView(s: System, awaiting: bool)
    requires Wired(s)
    ensures View(s, s.a.next) == Stream.Stream(FreshSock, FreshSock, [], [])
    ensures View(ApplyA(s, Dial(awaiting)), s.a.next)
            == Stream.ApplyA(Stream.Stream(FreshSock, FreshSock, [], []), Stream.Dial(awaiting))
  {
    hide Wired, From, To;
    NextUnused(s);
    var k := s.a.next;
    var out := Packet(k, 0, MOpen);
    FromAppend(s.ab, [out], k);
    OneSent(out, k);
  }

  lemma DialKeeps(s: System, awaiting: bool)
    requires Inv(s)
    ensures Inv(ApplyA(s, Dial(awaiting)))
  {
    var e := Entry(DialSock(awaiting), 0, false);
    var out := Packet(s.a.next, 0, MOpen);
    var t := ApplyA(s, Dial(awaiting));
    InstallWired(s, e, out);
    DialView(s, awaiting);
    Stream.DialKeeps(View(s, s.a.next), awaiting);
    hide Wired, Stream.Inv, View;
    forall i | Opener(t.a, i) ensures Stream.Inv(View(t, i)) {
      if i != s.a.next { InstallViews(s, e, out, i); }
    }
    forall j | Opener(t.b, j) ensures Stream.Inv(View(Flip(t), j)) {
      InstallViews(s, e, out, j);
    }
  }

  // ---- an OPEN arrives ----

  lemma TakeOpenWired(s: System)
    requires Wired(s) && s.ba != []
    ensures Wired(s.(ba := s.ba[1..]))
  {
    var t := s.(ba := s.ba[1..]);
    forall i | 0 <= i < |t.ba| ensures Fits(Flip(t), t.ba[i]) {
      assert Fits(Flip(s), s.ba[i + 1]);
    }
    forall i | 0 <= i < |t.ab| ensures Fits(t, t.ab[i]) {
      assert Fits(s, s.ab[i]);
    }
    hide Packets;
  }

  /** The stream of an OPEN that arrives has no answer yet, and nothing else is in flight. */
  lemma OpenView(s: System)
    requires Inv(s) && s.ba != [] && s.ba[0].msg.MOpen?
    ensures s.ba[0].to == 0 && Opener(s.b, s.ba[0].from) && s.ba[0].from > 0
    ensures s.ba[0].from !in s.a.served
    ensures var v := View(Flip(s), s.ba[0].from);
            v == Stream.Stream(v.a, FreshSock, [MOpen], []) && Stream.Inv(v)
  {
    assert Fits(Flip(s), s.ba[0]);
    hide Packets;
  }

  lemma TakeOpenViews(s: System, i: nat)
    requires Wired(s) && s.ba != [] && s.ba[0].msg.MOpen?
    ensures i != 0 ==> View(s.(ba := s.ba[1..]), i) == View(s, i)
    ensures i != s.ba[0].from ==> View(Flip(s.(ba := s.ba[1..])), i) == View(Flip(s), i)
  {
    assert Fits(Flip(s), s.ba[0]);
    hide Packets;
  }

  /** The stream of the OPEN moves as `Stream` says, whether or not the service could start. */
  lemma OpenMoves(s: System, accept: bool, env: seq<WriteResult>)
    requires Inv(s) && s.ba != [] && s.ba[0].msg.MOpen?
    ensures Stream.Inv(View(Flip(Handle(s, accept, env)), s.ba[0].from))
  {
    hide Wired, Streams, Stream.Inv;
    var j := s.ba[0].from;
    OpenView(s);
    var v := View(Flip(s), j);
    Stream.FlipInv(v);
    Stream.ArriveOpen(Stream.Flip(v), accept, env);
    Stream.FlipInv(Stream.ApplyA(Stream.Flip(v), Stream.Arrive(accept, env)));
    OpenBecomes(s, v.a, accept, env);
  }

  /** The stream after its OPEN was heard, written out. */
  lemma OpenBecomes(s: System, opener: Sock, accept: bool, env: seq<WriteResult>)
    requires s.ba != [] && s.ba[0].msg.MOpen? && s.ba[0].to == 0 && s.ba[0].from > 0
    requires s.ba[0].from !in s.a.served
    requires var v := Stream.Stream(opener, FreshSock, [MOpen], []); View(Flip(s), s.ba[0].from) == v
    ensures var v := Stream.Stream(opener, FreshSock, [MOpen], []);
            View(Flip(Handle(s, accept, env)), s.ba[0].from)
            == Stream.Flip(Stream.ApplyA(Stream.Flip(v), Stream.Arrive(accept, env)))
  {
    var j := s.ba[0].from;
    var out := if accept then Packet(s.a.next, j, MOkay) else Packet(0, j, MReject);
    ToAppend(s.ab, [out], j);
    OneSent(out, j);
    assert From(s.ba, j) == [MOpen] + From(s.ba[1..], j);
    assert Handle(s, accept, env).ab == s.ab + [out];
  }

  lemma OpenInstalls(s: System, env: seq<WriteResult>)
    requires Inv(s) && s.ba != [] && s.ba[0].msg.MOpen?
    ensures var s1 := s.(ba := s.ba[1..]);
            var e := Entry(ServiceSock, s.ba[0].from, true);
            var out := Packet(s.a.next, s.ba[0].from, MOkay);
            && Wired(s1) && Newcomer(s1, e, out)
            && Handle(s, true, env) == Install(s1, e, out, true) && Wired(Handle(s, true, env))
  {
    OpenView(s);
    TakeOpenWired(s);
    hide Wired, Stream.Inv, Streams;
    InstallWired(s.(ba := s.ba[1..]), Entry(ServiceSock, s.ba[0].from, true), Packet(s.a.next, s.ba[0].from, MOkay));
  }

  lemma OpenElsewhere(s: System, env: seq<WriteResult>, i: nat)
    requires Inv(s) && s.ba != [] && s.ba[0].msg.MOpen? && i != 0
    ensures var t := Handle(s, true, env);
            && (Opener(t.a, i) ==> Opener(s.a, i) && View(t, i) == View(s, i))
            && (Opener(t.b, i) ==> Opener(s.b, i))
            && (Opener(t.b, i) && i != s.ba[0].from ==> View(Flip(t), i) == View(Flip(s), i))
  {
    hide Wired, Streams, Stream.Inv, View, Handle;
    var s1 := s.(ba := s.ba[1..]);
    OpenInstalls(s, env);
    TakeOpenViews(s, i);
    InstallViews(s1, Entry(ServiceSock, s.ba[0].from, true), Packet(s.a.next, s.ba[0].from, MOkay), i);
  }

  lemma OpenAcceptedKeeps(s: System, env: seq<WriteResult>)
    requires Inv(s) && s.ba != [] && s.ba[0].msg.MOpen?
    ensures Inv(Handle(s, true, env))
  {
    OpenInstalls(s, env);
    OpenMoves(s, true, env);
    var t := Handle(s, true, env);
    assert 0 !in t.a.socks && 0 !in t.b.socks by {
      hide Packets, Streams, Handle;
    }
    hide Wired, Stream.Inv, View, Handle;
    forall i | Opener(t.a, i) ensures Stream.Inv(View(t, i)) {
      OpenElsewhere(s, env, i);
    }
    forall i | Opener(t.b, i) ensures Stream.Inv(View(Flip(t), i)) {
      OpenElsewhere(s, env, i);
    }
  }

  lemma OpenRejectedWired(s: System, j: nat)
    requires Wired(s) && Opener(s.b, j)
    ensures Wired(s.(ab := s.ab + [Packet(0, j, MReject)]))
  {
    var t := s.(ab := s.ab + [Packet(0, j, MReject)]);
    forall i | 0 <= i < |t.ab| ensures Fits(t, t.ab[i]) {
      if i < |s.ab| { assert Fits(s, s.ab[i]); }
    }
    forall i | 0 <= i < |t.ba| ensures Fits(Flip(t), t.ba[i]) {
      assert Fits(Flip(s), s.ba[i]);
    }
    hide Packets;
  }

  lemma OpenRejectedViews(s: System, j: nat, i: nat)
    requires i != 0
    ensures View(s.(ab := s.ab + [Packet(0, j, MReject)]), i) == View(s, i)
    ensures i != j ==> View(Flip(s.(ab := s.ab + [Packet(0, j, MReject)])), i) == View(Flip(s), i)
  {
    var out := Packet(0, j, MReject);
    FromAppend(s.ab, [out], i);
    ToAppend(s.ab, [out], i);
    OneSent(out, i);
    hide From, To;
  }

  lemma OpenRejectedKeeps(s: System, env: seq<WriteResult>)
    requires Inv(s) && s.ba != [] && s.ba[0].msg.MOpen?
    ensures Inv(Handle(s, false, env))
  {
    var j := s.ba[0].from;
    OpenView(s);
    OpenMoves(s, false, env);
    TakeOpenWired(s);
    var s1 := s.(ba := s.ba[1..]);
    var out := Packet(0, j, MReject);
    var t := Handle(s, false, env);
    assert t == s1.(ab := s.ab + [out]);
    assert 0 !in s.a.socks && 0 !in s.b.socks;
    OpenRejectedWired(s1, j);
    hide Wired, Stream.Inv, Handle, View;
    forall i | Opener(t.a, i) ensures Stream.Inv(View(t, i)) {
      TakeOpenViews(s, i);
      OpenRejectedViews(s1, j, i);
    }
    forall i | Opener(t.b, i) ensures Stream.Inv(View(Flip(t), i)) {
      if i != j {
        TakeOpenViews(s, i);
        OpenRejectedViews(s1, j, i);
      }
    }
  }

  // ---- every run ----

  lemma StepKeepsA(s: System, e: Event)
    requires Inv(s) && EnabledA(s, e)
    ensures Inv(ApplyA(s, e))
  {
    hide Inv;
    match e
    case Dial(awaiting) => DialKeeps(s, awaiting);
    case Arrive(accept, env) =>
      if s.ba[0].msg.MOpen? {
        if accept { OpenAcceptedKeeps(s, env); } else { OpenRejectedKeeps(s, env); }
      } else {
        PacketKeeps(s, accept, env);
      }
    case _ => EventKeeps(s, e);
  }

  lemma FlipInv(s: System)
    ensures Inv(Flip(s)) <==> Inv(s)
  {
    assert Flip(Flip(s)) == s;
    hide Ids, Packets, Stream.Inv;
  }

  lemma StepKeeps(s: System, st: Step)
    requires Inv(s) && Enabled(s, st)
    ensures Inv(Apply(s, st))
  {
    hide Inv;
    if st.atA {
      StepKeepsA(s, st.event);
    } else {
      FlipInv(s);
      StepKeepsA(Flip(s), st.event);
      FlipInv(ApplyA(Flip(s), st.event));
    }
  }

  /** A run: consecutive states, from two endpoints that have no socket yet. */
  ghost predicate Run(states: seq<System>, steps: seq<Step>) {
    && |states| == |steps| + 1
    && states[0] == Start
    && forall i :: 0 <= i < |steps| ==>
         Enabled(states[i], steps[i]) && states[i + 1] == Apply(states[i], steps[i])
  }

  lemma {:induction false} RunKeeps(states: seq<System>, steps: seq<Step>, n: nat)
    requires Run(states, steps) && n < |states|
    ensures Inv(states[n])
  {
    if n == 0 {
      assert states[0] == Start;
    } else {
      RunKeeps(states, steps, n - 1);
      assert Enabled(states[n - 1], steps[n - 1]);
      hide Inv;
      StepKeeps(states[n - 1], steps[n - 1]);
    }
  }

  /** The stream that socket `id` opened, at endpoint a or at endpoint b, seen from its opener. */
  function Seen(s: System, atA: bool, id: nat): Stream.Stream {
    if atA then View(s, id) else View(Flip(s), id)
  }

  predicate Opened(s: System, atA: bool, id: nat) {
    Opener(if atA then s.a else s.b, id)
  }

  lemma SeenInv(states: seq<System>, steps: seq<Step>, n: nat, atA: bool, id: nat)
    requires Run(states, steps) && n < |states| && Opened(states[n], atA, id)
    ensures Stream.Inv(Seen(states[n], atA, id))
  {
    RunKeeps(states, steps, n);
    hide Stream.Inv, Wired;
  }

  /**
   In every run, each direction of every stream that has not begun closing has exactly one credit:
   at most one WRITE is unacknowledged and neither socket holds more than one packet of backlog.
   */
  lemma OneCredit(states: seq<System>, steps: seq<Step>, n: nat, atA: bool, id: nat)
    requires Run(states, steps) && n < |states| && Opened(states[n], atA, id)
    requires Stream.Established(Seen(states[n], atA, id))
    ensures var v := Seen(states[n], atA, id);
            && Stream.Bit(v.a.wantRead) + Stream.Writes(v.ab) + |v.b.queue| + Stream.Okays(v.ba) == 1
            && Stream.Bit(v.b.wantRead) + Stream.Writes(v.ba) + |v.a.queue| + Stream.Okays(v.ab) == 1
  {
    SeenInv(states, steps, n, atA, id);
    hide Run, Seen;
  }

  /** In every run, what either descriptor was given is a prefix of what the other one supplied. */
  lemma InOrder(states: seq<System>, steps: seq<Step>, n: nat, atA: bool, id: nat)
    requires Run(states, steps) && n < |states| && Opened(states[n], atA, id)
    ensures var v := Seen(states[n], atA, id);
            Payload(v.b.out) <= v.a.got && Payload(v.a.out) <= v.b.got
  {
    SeenInv(states, steps, n, atA, id);
    hide Run, Seen;
  }

  /**
   A socket that has gone without closing of its own accord (no end of file, write error or
   abort there) was given every byte, even those queued when it moved to the closing list, and
   its far end had closed.
   */
  lemma AllDelivered(states: seq<System>, steps: seq<Step>, n: nat, atA: bool, id: nat)
    requires Run(states, steps) && n < |states| && Opened(states[n], atA, id)
    ensures var v := Seen(states[n], atA, id);
            && (v.b.phase.Gone? && !v.b.fault ==> Payload(v.b.out) == v.a.got && !Active(v.a))
            && (v.a.phase.Gone? && !v.a.fault ==> Payload(v.a.out) == v.b.got && !Active(v.b))
  {
    SeenInv(states, steps, n, atA, id);
    hide Run, Seen;
  }

  /**
   Teardown: a linked socket whose far end has closed has a CLOSE on the way. There are two
   exceptions, in which none is sent: an opener that closed before it heard READY, and an end that
   closed because its transport went.
   */
  lemma CloseIsComing(states: seq<System>, steps: seq<Step>, n: nat, atA: bool, id: nat)
    requires Run(states, steps) && n < |states| && Opened(states[n], atA, id)
    ensures var v := Seen(states[n], atA, id);
            && (v.a.phase.Linked? && !Active(v.b) ==> (MClose in v.ba <==> !v.b.lost))
            && (v.b.phase.Linked? && !Active(v.a) ==> (MClose in v.ab <==> v.a.ever && !v.a.lost))
  {
    SeenInv(states, steps, n, atA, id);
    RunKeeps(states, steps, n);
    var v := Seen(states[n], atA, id);
    assert v.b.phase.Fresh? || v.b.ever;
    hide Run, Seen, Wired, Streams;
  }

  /**
   With nothing in flight, a linked opener has a linked answer exactly when that has not lost its
   transport; and a linked answer has a linked opener exactly when that was ever linked and has not.
   */
  lemma QuietPair(states: seq<System>, steps: seq<Step>, n: nat, atA: bool, id: nat)
    requires Run(states, steps) && n < |states| && Opened(states[n], atA, id)
    requires Seen(states[n], atA, id).ab == [] && Seen(states[n], atA, id).ba == []
    ensures var v := Seen(states[n], atA, id);
            && (v.a.phase.Linked? ==> (v.b.phase.Linked? <==> !v.b.lost))
            && (v.b.phase.Linked? ==> (v.a.phase.Linked? <==> v.a.ever && !v.a.lost))
  {
    CloseIsComing(states, steps, n, atA, id);
    SeenInv(states, steps, n, atA, id);
    hide Run, Seen;
  }

  // ---- two sockets that were once linked ----

  function Between(ps: seq<Packet>, from: nat, to: nat): seq<Msg> {
    if ps == [] then []
    else (if ps[0].from == from && ps[0].to == to then [ps[0].msg] else []) + Between(ps[1..], from, to)
  }

  lemma {:induction false} BetweenFrom(ps: seq<Packet>, i: nat, j: nat)
    requires forall n :: 0 <= n < |ps| && ps[n].from == i ==> ps[n].to == j
    ensures From(ps, i) == Between(ps, i, j)
  {
    if ps != [] {
      BetweenFrom(ps[1..], i, j);
    }
  }

  lemma {:induction false} BetweenTo(ps: seq<Packet>, i: nat, j: nat)
    requires forall n :: 0 <= n < |ps| && ps[n].to == j ==> ps[n].from == i
    ensures To(ps, j) == Between(ps, i, j)
  {
    if ps != [] {
      BetweenTo(ps[1..], i, j);
    }
  }

  lemma {:induction false} AmongFrom(ps: seq<Packet>, n: nat, i: nat)
    requires n < |ps| && ps[n].from == i
    ensures ps[n].msg in From(ps, i)
  {
    if n > 0 {
      AmongFrom(ps[1..], n - 1, i);
    }
  }

  lemma {:induction false} AmongTo(ps: seq<Packet>, n: nat, i: nat)
    requires n < |ps| && ps[n].to == i
    ensures ps[n].msg in To(ps, i)
  {
    if n > 0 {
      AmongTo(ps[1..], n - 1, i);
    }
  }

  /** Socket x of endpoint b answered socket k of endpoint a. */
  predicate AnsweredBy(s: System, k: nat, x: nat) {
    Opener(s.a, k) && k in s.b.served && s.b.served[k] == x
  }

  /** Sockets k of endpoint a and x of endpoint b are the two ends of one stream. */
  predicate Mated(s: System, k: nat, x: nat) {
    AnsweredBy(s, k, x) || AnsweredBy(Flip(s), x, k)
  }

  lemma AnsweredStream(s: System, k: nat, x: nat)
    requires Inv(s) && AnsweredBy(s, k, x)
    ensures k in s.a.socks && x in s.b.socks && !s.a.socks[k].server && s.b.socks[x].server && s.b.socks[x].peer == k
    ensures var v := View(s, k);
            && Stream.Inv(v) && v.a == s.a.socks[k].sock && v.b == s.b.socks[x].sock && !v.b.phase.Fresh?
            && !v.a.phase.Fresh?
  {
    hide Packets, Stream.Inv;
  }

  lemma OpeningOver(v: Stream.Stream)
    requires Stream.Inv(v) && !v.b.phase.Fresh?
    ensures MOpen !in v.ab && MReject !in v.ba
  {
    hide Stream.Datas, Stream.Credits, Stream.Sane;
  }

  lemma FromHere(s: System, k: nat, x: nat, n: nat)
    requires Wired(s) && AnsweredBy(s, k, x) && MOpen !in From(s.ab, k) && n < |s.ab| && s.ab[n].from == k
    ensures s.ab[n].to == x
  {
    AmongFrom(s.ab, n, k);
    assert Fits(s, s.ab[n]);
    hide Packets, From;
  }

  lemma ToHere(s: System, k: nat, x: nat, n: nat)
    requires Wired(s) && AnsweredBy(s, k, x) && MReject !in To(s.ba, k) && n < |s.ba| && s.ba[n].to == k
    ensures s.ba[n].from == x
  {
    AmongTo(s.ba, n, k);
    assert Fits(Flip(s), s.ba[n]);
    hide Packets, To;
  }

  /** What one end says to the other is all that is said on their stream. */
  lemma AnsweredPackets(s: System, k: nat, x: nat)
    requires Inv(s) && AnsweredBy(s, k, x)
    ensures View(s, k).ab == Between(s.ab, k, x) && View(s, k).ba == Between(s.ba, x, k)
  {
    hide Stream.Inv, Wired, Streams, AnsweredBy, From, To, Between;
    AnsweredStream(s, k, x);
    OpeningOver(View(s, k));
    forall n | 0 <= n < |s.ab| && s.ab[n].from == k ensures s.ab[n].to == x {
      FromHere(s, k, x, n);
    }
    forall n | 0 <= n < |s.ba| && s.ba[n].to == k ensures s.ba[n].from == x {
      ToHere(s, k, x, n);
    }
    BetweenFrom(s.ab, k, x);
    BetweenTo(s.ba, x, k);
  }

  lemma MatedStream(s: System, k: nat, x: nat)
    requires Inv(s) && Mated(s, k, x)
    ensures k in s.a.socks && x in s.b.socks
    ensures var v := Around(s, k);
            && Stream.Inv(v) && v.a == s.a.socks[k].sock && v.b == s.b.socks[x].sock
            && !v.a.phase.Fresh? && !v.b.phase.Fresh?
            && v.ab == Between(s.ab, k, x) && v.ba == Between(s.ba, x, k)
  {
    hide Inv, View, Between, Stream.Inv;
    if AnsweredBy(s, k, x) {
      AnsweredStream(s, k, x);
      AnsweredPackets(s, k, x);
    } else {
      FlipInv(s);
      AnsweredStream(Flip(s), x, k);
      AnsweredPackets(Flip(s), x, k);
      Stream.FlipInv(View(Flip(s), x));
    }
  }

  /** A linked socket is one end of a stream. */
  lemma LinkedMated(s: System, k: nat)
    requires Inv(s) && k in s.a.socks && s.a.socks[k].sock.phase.Linked?
    ensures Mated(s, k, s.a.socks[k].peer)
  {
    hide Packets, Stream.Inv;
  }

  /** An OPEN is answered once. */
  lemma OpenNotServed(s: System)
    requires Inv(s) && s.ba != [] && s.ba[0].msg.MOpen?
    ensures s.ba[0].from !in s.a.served
  {
    var j := s.ba[0].from;
    assert Fits(Flip(s), s.ba[0]);
    assert View(Flip(s), j).ab[0] == MOpen;
    assert Stream.Inv(View(Flip(s), j));
    assert View(Flip(s), j).b.phase.Fresh?;
    hide Stream.Inv;
  }

  lemma OpenerKept(s: System, e: Event, k: nat)
    requires Range(s) && EnabledA(s, e) && Opener(s.a, k)
    ensures Opener(ApplyA(s, e).a, k)
  {
    hide OnWrite, OnWritable, OnReadable, Close, CloseLocked, OnOkay, Address;
  }

  lemma ServedKept(s: System, e: Event, x: nat)
    requires Inv(s) && EnabledA(s, e) && x in s.a.served
    ensures var t := ApplyA(s, e); x in t.a.served && t.a.served[x] == s.a.served[x]
  {
    hide Inv, EnabledA, ApplyA;
    if e.Arrive? && s.ba != [] && s.ba[0].msg.MOpen? {
      OpenNotServed(s);
    }
    ServedElse(s, e, x);
  }

  lemma ServedElse(s: System, e: Event, x: nat)
    requires EnabledA(s, e) && x in s.a.served
    requires e.Arrive? && s.ba != [] && s.ba[0].msg.MOpen? ==> s.ba[0].from != x
    ensures var t := ApplyA(s, e); x in t.a.served && t.a.served[x] == s.a.served[x]
  {
    hide OnWrite, OnWritable, OnReadable, Close, CloseLocked, OnOkay, Address;
  }

  lemma FarKept(s: System, e: Event)
    requires EnabledA(s, e)
    ensures ApplyA(s, e).b == s.b
  {
    hide OnWrite, OnWritable, OnReadable, Close, CloseLocked, OnOkay, Address;
  }

  lemma MatedKeptA(s: System, e: Event, k: nat, x: nat)
    requires Inv(s) && EnabledA(s, e) && Mated(s, k, x)
    ensures Mated(ApplyA(s, e), k, x)
  {
    FarKept(s, e);
    if AnsweredBy(s, k, x) {
      OpenerKept(s, e, k);
    } else {
      ServedKept(s, e, x);
    }
    hide Inv, ApplyA, EnabledA;
  }

  lemma MatedKept(s: System, st: Step, k: nat, x: nat)
    requires Inv(s) && Enabled(s, st) && Mated(s, k, x)
    ensures Mated(Apply(s, st), k, x)
  {
    hide Inv, ApplyA, EnabledA, AnsweredBy;
    if st.atA {
      MatedKeptA(s, st.event, k, x);
    } else {
      FlipInv(s);
      MatedKeptA(Flip(s), st.event, x, k);
    }
  }

  /** The two ends of a stream stay its two ends. */
  lemma {:induction false} RunMated(states: seq<System>, steps: seq<Step>, m: nat, n: nat, k: nat, x: nat)
    requires Run(states, steps) && m <= n < |states| && Mated(states[m], k, x)
    ensures Mated(states[n], k, x)
    decreases n - m
  {
    hide Inv, Enabled, Apply, Mated;
    if m < n {
      RunKeeps(states, steps, m);
      MatedKept(states[m], steps[m], k, x);
      RunMated(states, steps, m + 1, n, k, x);
    }
  }

  /**
   The exception happens: an opener that closes before READY leaves its answer linked for good,
   with nothing in flight in either direction.
   */
  lemma HalfOpen() returns (states: seq<System>, steps: seq<Step>)
    ensures Run(states, steps)
    ensures var v := Seen(states[|states| - 1], true, 1);
            && Opened(states[|states| - 1], true, 1)
            && v.ab == [] && v.ba == [] && v.b.phase.Linked? && v.a.phase.Gone? && !v.a.ever
  {
    steps := [Step(true, Dial(true)), Step(true, Abort(1, true)),
              Step(false, Arrive(true, [])), Step(true, Arrive(true, []))];
    var s1 := Apply(Start, steps[0]);
    var s2 := Apply(s1, steps[1]);
    assert s2.ab == [Packet(1, 0, MOpen)];
    var s3 := Apply(s2, steps[2]);
    assert s3.ba == [Packet(1, 1, MOkay)];
    var s4 := Apply(s3, steps[3]);
    assert s4.ab == [] && s4.ba == [];
    states := [Start, s1, s2, s3, s4];
  }
}
