/**
 One stream between two sockets that run the same code, joined by a first-in first-out channel
 in each direction. The state is symmetric: `Flip` swaps the two ends, so every fact is stated
 for the direction a to b and holds of the other by flipping.
 */
module Stream {
  import opened Octets
  import opened Lists
  import opened SocketSpec

  datatype Stream = Stream(a: Sock, b: Sock, ab: seq<Msg>, ba: seq<Msg>)

  function Flip(s: Stream): Stream {
    Stream(s.b, s.a, s.ba, s.ab)
  }

  datatype Event =
    | Dial(awaiting: bool)
    | Arrive(accept: bool, env: seq<WriteResult>)
    | Readable(incoming: seq<ReadResult>)
    | Writable(outgoing: seq<WriteResult>)
    | Abort(notify: bool)
    | Lose

  /** An event happens at one end. */
  datatype Step = Step(atA: bool, event: Event)

  /** When an event can happen at end a: select reports only what is watched. */
  predicate EnabledA(s: Stream, e: Event) {
    match e
    case Dial(_) => s == Stream(FreshSock, FreshSock, [], [])
    case Arrive(_, _) => s.ba != []
    case Readable(_) => s.a.phase.Linked? && s.a.wantRead
    case Writable(_) => s.a.queue != []
    case Abort(_) => Active(s.a) || s.a.phase.Draining?
    case Lose => s.a.phase.Linked?
  }

  function Sent(s: Stream, r: Reply): Stream {
    s.(a := r.sock, ab := s.ab + r.msgs)
  }

  function ApplyA(s: Stream, e: Event): Stream
    requires EnabledA(s, e)
  {
    match e
    case Dial(w) => s.(a := DialSock(w), ab := [MOpen])
    case Arrive(accept, env) =>
      var r := Receive(s.a, s.ba[0], accept, env);
      Sent(s.(ba := s.ba[1..]), r)
    case Readable(env) => Sent(s, OnReadable(s.a, env))
    case Writable(env) => Sent(s, OnWritable(s.a, env))
    case Abort(notify) => Sent(s, if notify then Close(s.a, true) else CloseLocked(s.a, true))
    case Lose => Sent(s, Reply(Lost(s.a), []))
  }

  predicate Enabled(s: Stream, st: Step) {
    if st.atA then EnabledA(s, st.event) else EnabledA(Flip(s), st.event)
  }

  function Apply(s: Stream, st: Step): Stream
    requires Enabled(s, st)
  {
    if st.atA then ApplyA(s, st.event) else Flip(ApplyA(Flip(s), st.event))
  }

  // ---- what a channel holds ----

  function Writes(ms: seq<Msg>): nat {
    if ms == [] then 0 else (if ms[0].MWrite? then 1 else 0) + Writes(ms[1..])
  }

  function Okays(ms: seq<Msg>): nat {
    if ms == [] then 0 else (if ms[0].MOkay? then 1 else 0) + Okays(ms[1..])
  }

  function Carried(ms: seq<Msg>): bytes {
    if ms == [] then [] else (if ms[0].MWrite? then ms[0].data else []) + Carried(ms[1..])
  }

  lemma {:induction false} ChannelSums(ms: seq<Msg>, ns: seq<Msg>)
    ensures Writes(ms + ns) == Writes(ms) + Writes(ns)
    ensures Okays(ms + ns) == Okays(ms) + Okays(ns)
    ensures Carried(ms + ns) == Carried(ms) + Carried(ns)
  {
    if ms == [] {
      assert ms + ns == ns;
    } else {
      ChannelSums(ms[1..], ns);
      assert (ms + ns)[1..] == ms[1..] + ns;
      Assoc(if ms[0].MWrite? then ms[0].data else [], Carried(ms[1..]), Carried(ns));
    }
  }

  lemma Assoc(x: bytes, y: bytes, z: bytes)
    ensures x + (y + z) == x + y + z
  {
  }

  /** Writing from the front of the backlog does not change what has landed. */
  lemma LandedWhole(s: Sock, sent: bytes, rest: seq<bytes>)
    requires sent + Joined(rest) == Joined(s.queue)
    ensures Landed(s.(out := s.out + [Chunk(sent)], queue := rest)) == Landed(s)
  {
    var out := s.out + [Chunk(sent)];
    assert out[..|out| - 1] == s.out;
    Assoc(Payload(s.out), sent, Joined(rest));
  }

  // ---- the invariant ----

  function Bit(b: bool): nat { if b then 1 else 0 }

  /** The credit of direction a to b: read interest, data in flight, backlog, READY in flight. */
  function Credit(s: Stream): nat {
    Bit(s.a.wantRead) + Writes(s.ab) + Bit(s.b.queue != []) + Okays(s.ba)
  }

  /** Both ends exist and neither has begun closing. */
  predicate Established(s: Stream) {
    || (s.a.phase.Linked? && Active(s.b))
    || (Active(s.a) && s.b.phase.Linked?)
  }

  predicate Closed(s: Sock) {
    s.phase.Draining? || s.phase.Gone?
  }

  /** Local facts about one socket. */
  predicate Sane(s: Sock) {
    && (s.phase.Fresh? ==> s == FreshSock)
    && (s.phase.Connecting? ==> s == DialSock(s.awaiting))
    && (s.phase.Linked? ==> s.ever && !s.awaiting)
    && (s.phase.Draining? ==> s.ever && s.queue != [] && !s.wantRead && !s.awaiting)
    && (s.phase.Gone? ==> s.queue == [] && !s.wantRead && !s.awaiting)
    && (!s.ever ==> s.got == [] && Payload(s.out) == [])
    && (s.lost ==> Closed(s) && s.ever && s.fault)
  }

  /** Bytes that reached b, counting its backlog. */
  function Landed(b: Sock): bytes {
    Payload(b.out) + Joined(b.queue)
  }

  predicate Data(s: Stream) {
    && (!Closed(s.b) ==> s.a.got == Landed(s.b) + Carried(s.ab))
    && Landed(s.b) <= s.a.got
    && (Closed(s.b) && !s.b.fault ==> !Active(s.a) && Landed(s.b) == s.a.got)
  }

  predicate LastOnly(ms: seq<Msg>, m: Msg) {
    forall i :: 0 <= i < |ms| - 1 ==> ms[i] != m
  }

  /** How the opening and closing messages sit in the channel from a. */
  predicate Shape(s: Stream) {
    && (MOpen in s.ab ==> s.ab == [MOpen] && s.ba == [] && s.b.phase.Fresh?)
    && (MReject in s.ab ==> s.ab == [MReject] && s.ba == [] && s.a.phase.Fresh? && !s.b.phase.Fresh? && !s.b.ever)
    && (!Closed(s.a) ==> MClose !in s.ab)
    && LastOnly(s.ab, MClose)
    && (s.a.phase.Fresh? ==> (s.ab == [] || s.ab == [MReject]) && (s.ba == [] || s.ba == [MOpen]) && !s.b.ever)
    && (s.a.phase.Connecting? && s.b.phase.Fresh? ==>
          (s.ab == [MOpen] && s.ba == []) || (s.ab == [] && s.ba == [MReject]))
    && (s.a.phase.Connecting? && !s.b.phase.Fresh? ==>
          s.b.ever && s.ab == [] && s.ba != [] && s.ba[0] == MOkay)
    && (s.a.phase.Gone? && !s.a.ever ==> s.ab == [] || s.ab == [MOpen])
    && (s.a.phase.Gone? && !s.a.ever && !s.a.fault ==> s.b.phase.Fresh? && s.ab == [] && s.ba == [])
    && (Closed(s.a) && s.a.ever && !s.a.lost && Active(s.b) ==> s.ab != [] && s.ab[|s.ab| - 1] == MClose)
    && (s.a.lost ==> MClose !in s.ab)
  }

  predicate Shapes(s: Stream) {
    Sane(s.a) && Sane(s.b) && Shape(s) && Shape(Flip(s))
  }

  predicate Datas(s: Stream) {
    Data(s) && Data(Flip(s))
  }

  predicate Credits(s: Stream) {
    Established(s) ==>
      Credit(s) == 1 && Credit(Flip(s)) == 1 && |s.a.queue| <= 1 && |s.b.queue| <= 1
  }

  predicate Inv(s: Stream) {
    Shapes(s) && Datas(s) && Credits(s)
  }

  // ---- end a asks for a stream ----

  lemma DialKeeps(s: Stream, awaiting: bool)
    requires EnabledA(s, Dial(awaiting))
    ensures Inv(ApplyA(s, Dial(awaiting)))
  {
  }

  // ---- end a closes of its own accord ----

  lemma CloseShapes(s: Stream, out: seq<FdWrite>)
    requires Shapes(s) && (Active(s.a) || s.a.phase.Draining?)
    requires Payload(out) == Payload(s.a.out)
    ensures Shapes(Sent(s, CloseLocked(s.a.(out := out), true)))
  {
    hide Payload;
  }

  /** Closing may drop a backlog and adds nothing to what landed. */
  lemma CloseLanded(a: Sock, out: seq<FdWrite>)
    requires Payload(out) == Payload(a.out)
    ensures var c := CloseLocked(a.(out := out), true);
            Landed(c.sock) <= Landed(a) && Carried(c.msgs) == []
  {
    assert Carried([MClose]) == [];
  }

  lemma CloseDatas(s: Stream, out: seq<FdWrite>)
    requires Shapes(s) && Datas(s) && (Active(s.a) || s.a.phase.Draining?)
    requires Payload(out) == Payload(s.a.out)
    ensures Datas(Sent(s, CloseLocked(s.a.(out := out), true)))
  {
    hide Shape, Landed, Carried, Payload, Writes, Okays;
    var c := CloseLocked(s.a.(out := out), true);
    CloseLanded(s.a, out);
    ChannelSums(s.ab, c.msgs);
  }

  lemma StatusPayload(out: seq<FdWrite>, status: FdWrite)
    requires !status.Chunk?
    ensures Payload(out + [status]) == Payload(out)
  {
    assert (out + [status])[..|out|] == out;
  }

  lemma AbortKeeps(s: Stream, notify: bool)
    requires Inv(s) && EnabledA(s, Abort(notify))
    ensures Inv(ApplyA(s, Abort(notify)))
  {
    hide Shapes, Datas, Payload, Credit;
    StatusPayload(s.a.out, FailStatus);
    var out := if notify && s.a.awaiting then s.a.out + [FailStatus] else s.a.out;
    CloseShapes(s, out);
    CloseDatas(s, out);
    assert ApplyA(s, Abort(notify)) == Sent(s, CloseLocked(s.a.(out := out), true));
  }

  // ---- end a loses its transport ----

  lemma LoseShapes(s: Stream)
    requires Shapes(s) && s.a.phase.Linked?
    ensures Shapes(s.(a := Lost(s.a)))
  {
    hide Payload;
  }

  lemma LoseDatas(s: Stream)
    requires Shapes(s) && Datas(s) && s.a.phase.Linked?
    ensures Datas(s.(a := Lost(s.a)))
  {
    hide Shape, Carried, Payload, Writes, Okays, Joined;
  }

  lemma LoseKeeps(s: Stream)
    requires Inv(s) && EnabledA(s, Lose)
    ensures Inv(ApplyA(s, Lose))
  {
    hide Shapes, Datas, Payload, Credit;
    LinkedNow(s);
    LoseShapes(s);
    LoseDatas(s);
    assert ApplyA(s, Lose) == s.(a := Lost(s.a));
  }

  lemma LinkedNow(s: Stream)
    requires s.a.phase.Linked?
    ensures s.ab + [] == s.ab && !Active(Lost(s.a))
  {
  }

  // ---- end a reads its descriptor ----

  /** The stream after end a has sent one packet of data it read. */
  function AfterData(s: Stream, d: bytes): Stream {
    s.(a := s.a.(got := s.a.got + d, wantRead := false), ab := s.ab + [MWrite(d)])
  }

  lemma DataShapes(s: Stream, d: bytes)
    requires Shapes(s) && s.a.phase.Linked?
    ensures Shapes(AfterData(s, d))
  {
    hide Payload;
  }

  lemma DataDatas(s: Stream, d: bytes)
    requires Datas(s) && s.a.phase.Linked?
    ensures Datas(AfterData(s, d))
  {
    hide Landed, Carried, Writes, Okays;
    ChannelSums(s.ab, [MWrite(d)]);
    OneCarried(d);
    ReadingLands(s.a, d);
    Assoc(Landed(s.b), Carried(s.ab), d);
  }

  lemma ReadingLands(a: Sock, d: bytes)
    ensures Landed(a.(got := a.got + d, wantRead := false)) == Landed(a)
  {
    hide Payload, Joined;
  }

  lemma OneCarried(d: bytes)
    ensures Carried([MWrite(d)]) == d
  {
    assert Carried([]) == [] && d + [] == d;
  }

  lemma DataKeeps(s: Stream, d: bytes)
    requires Inv(s) && s.a.phase.Linked? && s.a.wantRead
    ensures Inv(AfterData(s, d))
  {
    hide Shapes, Datas, Carried;
    DataShapes(s, d);
    DataDatas(s, d);
    ChannelSums(s.ab, [MWrite(d)]);
  }

  lemma ReadableKeeps(s: Stream, env: seq<ReadResult>)
    requires Inv(s) && EnabledA(s, Readable(env))
    ensures Inv(ApplyA(s, Readable(env)))
  {
    hide Inv, ReadUp;
    var r := ReadUp(MAX_PAYLOAD, env);
    var t := if r.0 == [] then s else AfterData(s, r.0);
    if r.0 != [] {
      DataKeeps(s, r.0);
    }
    if r.1 {
      AbortKeeps(t, true);
      assert ApplyA(t, Abort(true)) == ApplyA(s, Readable(env));
    } else {
      assert t == ApplyA(s, Readable(env));
    }
  }

  // ---- end a writes its backlog ----

  /** The stream after end a has written part of its backlog. */
  function AfterDrain(s: Stream, sent: bytes, rest: seq<bytes>): Stream {
    s.(a := s.a.(out := s.a.out + [Chunk(sent)], queue := rest))
  }

  lemma DrainShapes(s: Stream, sent: bytes, rest: seq<bytes>)
    requires Shapes(s) && s.a.queue != [] && rest != []
    ensures Shapes(AfterDrain(s, sent, rest))
  {
    hide Payload;
  }

  lemma DrainDatas(s: Stream, sent: bytes, rest: seq<bytes>)
    requires Datas(s) && sent + Joined(rest) == Joined(s.a.queue)
    ensures Datas(AfterDrain(s, sent, rest))
  {
    hide Landed, Carried;
    LandedWhole(s.a, sent, rest);
  }

  lemma DrainKeeps(s: Stream, sent: bytes, rest: seq<bytes>)
    requires Inv(s) && s.a.queue != [] && rest != [] && |rest| <= |s.a.queue|
    requires sent + Joined(rest) == Joined(s.a.queue)
    ensures Inv(AfterDrain(s, sent, rest))
  {
    hide Shapes, Datas, Writes, Okays, Joined;
    DrainShapes(s, sent, rest);
    DrainDatas(s, sent, rest);
  }

  /** The backlog is gone: a live socket answers READY, a draining one dies. */
  function AfterDrained(s: Stream, sent: bytes): Stream {
    var t := AfterDrain(s, sent, []);
    if s.a.phase.Draining? then t.(a := t.a.(phase := Gone)) else t.(ab := t.ab + [MOkay])
  }

  lemma DrainedShapes(s: Stream, sent: bytes)
    requires Shapes(s) && s.a.queue != []
    ensures Shapes(AfterDrained(s, sent))
  {
    hide Payload;
  }

  lemma NoCarried()
    ensures Carried([MOkay]) == []
  {
  }

  lemma DrainedLanded(s: Stream, sent: bytes)
    requires s.a.queue != [] && sent == Joined(s.a.queue)
    ensures Landed(AfterDrained(s, sent).a) == Landed(s.a)
  {
    hide Payload;
    assert Joined<byte>([]) == [];
    LandedWhole(s.a, sent, []);
  }

  lemma DrainedDatas(s: Stream, sent: bytes)
    requires Sane(s.a) && Datas(s) && s.a.queue != [] && sent == Joined(s.a.queue)
    ensures Datas(AfterDrained(s, sent))
  {
    hide Carried, Payload, Writes, Okays, Landed;
    ChannelSums(s.ab, [MOkay]);
    NoCarried();
    DrainedLanded(s, sent);
  }

  lemma DrainedCredits(s: Stream, sent: bytes)
    requires Credits(s) && s.a.queue != [] && (s.a.phase.Linked? || s.a.phase.Draining?)
    ensures Credits(AfterDrained(s, sent))
  {
    ChannelSums(s.ab, [MOkay]);
    assert Writes([MOkay]) == 0 && Okays([MOkay]) == 1;
    hide Writes, Okays, Carried;
  }

  lemma DrainedKeeps(s: Stream, sent: bytes)
    requires Inv(s) && s.a.queue != [] && sent == Joined(s.a.queue)
    ensures Inv(AfterDrained(s, sent))
  {
    assert s.a.phase.Linked? || s.a.phase.Draining?;
    assert Sane(s.a);
    hide Shapes, Datas, Credits, Sane, AfterDrained;
    DrainedShapes(s, sent);
    DrainedDatas(s, sent);
    DrainedCredits(s, sent);
  }

  lemma WritableKeeps(s: Stream, env: seq<WriteResult>)
    requires Inv(s) && EnabledA(s, Writable(env))
    ensures Inv(ApplyA(s, Writable(env)))
  {
    assert s.a.phase.Linked? || s.a.phase.Draining?;
    hide Inv, DrainQueue;
    var d := DrainQueue(s.a.queue, env);
    var t := AfterDrain(s, d.sent, d.rest);
    match d.verdict
    case Drained =>
      assert Joined<byte>([]) == [];
      DrainedKeeps(s, d.sent);
      assert ApplyA(s, Writable(env)).ab == AfterDrained(s, d.sent).ab;
    case Blocked =>
      DrainKeeps(s, d.sent, d.rest);
      assert ApplyA(s, Writable(env)).ab == t.ab;
    case Broken =>
      DrainKeeps(s, d.sent, d.rest);
      AbortKeeps(t, true);
      assert ApplyA(t, Abort(true)) == ApplyA(s, Writable(env));
  }

  // ---- a packet reaches end a ----

  function Taken(s: Stream): Stream
    requires s.ba != []
  {
    s.(ba := s.ba[1..])
  }

  lemma ArriveOpen(s: Stream, accept: bool, env: seq<WriteResult>)
    requires Inv(s) && s.ba != [] && s.ba[0] == MOpen
    ensures Inv(ApplyA(s, Arrive(accept, env)))
  {
    hide ApplyA;
    assert s.ba == [MOpen] && s.ab == [] && s.a == FreshSock by {
      hide Datas, Credits;
    }
    OpenAnswered(s, accept, env);
    OpenShapes(s, accept);
    OpenDatas(s, accept);
    hide Shapes, Datas, Credits;
  }

  function Answered(s: Stream, accept: bool): Stream {
    Stream(if accept then ServiceSock else FreshSock, s.b, if accept then [MOkay] else [MReject], [])
  }

  lemma OpenShapes(s: Stream, accept: bool)
    requires Shapes(s) && s.ba == [MOpen] && s.ab == [] && s.a == FreshSock
    ensures Shapes(Answered(s, accept))
  {
    hide Payload;
  }

  lemma OpenDatas(s: Stream, accept: bool)
    requires Shapes(s) && Datas(s) && s.ba == [MOpen] && s.ab == [] && s.a == FreshSock
    ensures Datas(Answered(s, accept)) && Credits(Answered(s, accept))
  {
    assert Okays([MOkay]) == 1 && Writes([MOkay]) == 0 && Carried([MOkay]) == [] && Carried([MReject]) == [];
  }

  lemma OpenAnswered(s: Stream, accept: bool, env: seq<WriteResult>)
    requires s.ba == [MOpen] && s.ab == [] && s.a == FreshSock
    ensures ApplyA(s, Arrive(accept, env)) == Answered(s, accept)
  {
  }

  lemma ArriveReject(s: Stream, accept: bool, env: seq<WriteResult>)
    requires Inv(s) && s.ba != [] && s.ba[0] == MReject
    ensures Inv(ApplyA(s, Arrive(accept, env)))
  {
    hide Inv, ApplyA;
    RejectHeard(s);
    RejectApplied(s, accept, env);
    RejectedKeeps(ApplyA(s, Arrive(accept, env)));
  }

  lemma RejectHeard(s: Stream)
    requires Inv(s) && s.ba != [] && s.ba[0] == MReject
    ensures s.ba == [MReject] && s.ab == [] && s.b == FreshSock && !s.a.phase.Fresh?
    ensures Active(s.a) ==> s.a == DialSock(s.a.awaiting)
    ensures !Active(s.a) ==> s.a.phase.Gone? && !s.a.ever && s.a.got == [] && Payload(s.a.out) == [] && Sane(s.a)
    ensures !s.a.ever
  {
    hide Datas, Credits, Payload;
  }

  lemma RejectApplied(s: Stream, accept: bool, env: seq<WriteResult>)
    requires s.ba == [MReject] && s.ab == [] && s.b == FreshSock
    requires if Active(s.a) then s.a == DialSock(s.a.awaiting)
             else s.a.phase.Gone? && !s.a.ever && s.a.got == [] && Payload(s.a.out) == [] && Sane(s.a)
    ensures var t := ApplyA(s, Arrive(accept, env));
            && t.ab == [] && t.ba == [] && t.b == FreshSock && t.a.phase.Gone? && !t.a.ever
            && t.a.got == [] && Payload(t.a.out) == [] && Sane(t.a)
  {
    StatusPayload([], FailStatus);
    assert Payload([]) == [];
    hide Payload;
  }

  lemma RejectedKeeps(t: Stream)
    requires t.ab == [] && t.ba == [] && t.b == FreshSock && t.a.phase.Gone? && !t.a.ever
    requires t.a.got == [] && Payload(t.a.out) == [] && Sane(t.a)
    ensures Inv(t)
  {
  }

  /** A closed socket is no longer found: the packet is dropped. */
  lemma DropShapes(s: Stream)
    requires Shapes(s) && Closed(s.a) && s.ba != [] && s.ba[0] != MOpen && s.ba[0] != MReject
    ensures Shapes(Taken(s))
  {
    hide Payload;
  }

  lemma DropKeeps(s: Stream)
    requires Inv(s) && Closed(s.a) && s.ba != [] && s.ba[0] != MOpen && s.ba[0] != MReject
    ensures Inv(Taken(s))
  {
    DropShapes(s);
    hide Shapes, Payload, Joined, Carried;
  }

  /** The stream after end a has heard READY. */
  function AfterOkay(s: Stream): Stream
    requires s.ba != []
  {
    Taken(s).(a := OnOkay(s.a))
  }

  lemma OkayShapes(s: Stream)
    requires Shapes(s) && s.ba != [] && s.ba[0] == MOkay && Active(s.a)
    ensures Shapes(AfterOkay(s))
    ensures Landed(AfterOkay(s).a) == Landed(s.a)
  {
    var out := s.a.out + [OkayStatus];
    assert out[..|out| - 1] == s.a.out;
    assert Payload(out) == Payload(s.a.out);
    hide Payload;
  }

  lemma OkayDatas(s: Stream)
    requires Shapes(s) && Datas(s) && s.ba != [] && s.ba[0] == MOkay && Active(s.a)
    ensures Datas(AfterOkay(s))
  {
    hide Shapes, Landed, Carried;
    OkayShapes(s);
    OkayCarriesNothing(s.ba);
  }

  lemma OkayCarriesNothing(ms: seq<Msg>)
    requires ms != [] && ms[0] == MOkay
    ensures Carried(ms) == Carried(ms[1..])
  {
  }

  lemma OkayKeeps(s: Stream)
    requires Inv(s) && s.ba != [] && s.ba[0] == MOkay && Active(s.a)
    ensures Inv(AfterOkay(s))
  {
    OkayShapes(s);
    OkayDatas(s);
    assert s.a.phase.Connecting? ==> !s.b.phase.Connecting?;
    hide Shapes, Datas;
  }

  /** The stream after end a has kept part or all of the packet d as backlog. */
  function AfterBacklog(s: Stream, out: seq<FdWrite>, queue: seq<bytes>): Stream
    requires s.ba != []
  {
    Taken(s).(a := s.a.(out := out, queue := queue))
  }

  lemma BacklogShapes(s: Stream, out: seq<FdWrite>, queue: seq<bytes>)
    requires Shapes(s) && s.ba != [] && s.ba[0].MWrite? && s.a.phase.Linked?
    ensures Shapes(AfterBacklog(s, out, queue))
  {
    hide Payload;
  }

  lemma BacklogDatas(s: Stream, out: seq<FdWrite>, queue: seq<bytes>)
    requires Datas(s) && s.ba != [] && s.ba[0].MWrite? && s.a.phase.Linked?
    requires Payload(out) + Joined(queue) == Landed(s.a) + s.ba[0].data
    ensures Datas(AfterBacklog(s, out, queue))
  {
    hide Landed, Carried, Payload, Joined;
    BacklogLands(s, out, queue);
  }

  lemma BacklogLands(s: Stream, out: seq<FdWrite>, queue: seq<bytes>)
    requires s.ba != [] && s.ba[0].MWrite?
    requires Payload(out) + Joined(queue) == Landed(s.a) + s.ba[0].data
    ensures var t := AfterBacklog(s, out, queue);
            && Landed(t.a) == Landed(s.a) + s.ba[0].data && t.ab == s.ab
            && Landed(s.a) + Carried(s.ba) == Landed(t.a) + Carried(t.ba)
  {
    hide Payload;
    Assoc(Landed(s.a), s.ba[0].data, Carried(s.ba[1..]));
  }

  lemma BacklogKeeps(s: Stream, out: seq<FdWrite>, queue: seq<bytes>)
    requires Inv(s) && s.ba != [] && s.ba[0].MWrite? && s.a.phase.Linked?
    requires Payload(out) + Joined(queue) == Landed(s.a) + s.ba[0].data
    requires |queue| == |s.a.queue| + 1
    ensures Inv(AfterBacklog(s, out, queue))
  {
    BacklogShapes(s, out, queue);
    BacklogDatas(s, out, queue);
    hide Shapes, Datas, Payload, Joined;
  }

  /** The stream after end a has written the whole packet and answered READY. */
  function AfterWritten(s: Stream, out: seq<FdWrite>): Stream
    requires s.ba != []
  {
    Taken(s).(a := s.a.(out := out), ab := s.ab + [MOkay])
  }

  lemma WrittenShapes(s: Stream, out: seq<FdWrite>)
    requires Shapes(s) && s.ba != [] && s.ba[0].MWrite? && s.a.phase.Linked?
    ensures Shapes(AfterWritten(s, out))
  {
    hide Payload;
  }

  /** What landed and what is on its way, once the packet has. */
  lemma WrittenLands(s: Stream, out: seq<FdWrite>)
    requires s.ba != [] && s.ba[0].MWrite? && s.a.queue == []
    requires Payload(out) == Landed(s.a) + s.ba[0].data
    ensures var t := AfterWritten(s, out);
            && Landed(t.a) == Landed(s.a) + s.ba[0].data && Carried(t.ab) == Carried(s.ab)
            && Landed(s.a) + Carried(s.ba) == Landed(t.a) + Carried(t.ba)
  {
    hide Payload;
    ChannelSums(s.ab, [MOkay]);
    NoCarried();
    Assoc(Landed(s.a), s.ba[0].data, Carried(s.ba[1..]));
  }

  lemma WrittenDatas(s: Stream, out: seq<FdWrite>)
    requires Datas(s) && s.ba != [] && s.ba[0].MWrite? && s.a.phase.Linked? && s.a.queue == []
    requires Payload(out) == Landed(s.a) + s.ba[0].data
    ensures Datas(AfterWritten(s, out))
  {
    hide Landed, Carried, Payload, Joined;
    WrittenLands(s, out);
  }

  lemma WrittenKeeps(s: Stream, out: seq<FdWrite>)
    requires Inv(s) && s.ba != [] && s.ba[0].MWrite? && s.a.phase.Linked? && s.a.queue == []
    requires Payload(out) == Landed(s.a) + s.ba[0].data
    ensures Inv(AfterWritten(s, out))
  {
    WrittenShapes(s, out);
    WrittenDatas(s, out);
    ChannelSums(s.ab, [MOkay]);
    hide Shapes, Datas, Payload, Joined;
  }

  /** The bytes offered to the descriptor land, whatever part of them it took. */
  lemma Offered(s: Sock, d: bytes, k: nat)
    requires s.queue == [] && k <= |d|
    ensures var out := s.out + [Chunk(d[..k])];
            Payload(out) + Joined([d[k..]]) == Landed(s) + d
    ensures k == |d| ==> Payload(s.out + [Chunk(d[..k])]) == Landed(s) + d
  {
    var out := s.out + [Chunk(d[..k])];
    assert out[..|out| - 1] == s.out;
    assert d == d[..k] + d[k..];
    assert Joined([d[k..]]) == d[k..];
    Assoc(Payload(s.out), d[..k], d[k..]);
  }

  /** The descriptor broke while taking the packet: the same as keeping the rest and giving up twice. */
  lemma BrokenKeeps(s: Stream, k: nat)
    requires Inv(s) && s.ba != [] && s.ba[0].MWrite? && s.a.phase.Linked? && s.a.queue == []
    requires k <= |s.ba[0].data|
    ensures var out := s.a.out + [Chunk(s.ba[0].data[..k])];
            Inv(Sent(Taken(s), Close(s.a.(out := out), true)))
  {
    assert !s.a.awaiting;
    hide Inv, Payload, Joined;
    var d := s.ba[0].data;
    var out := s.a.out + [Chunk(d[..k])];
    Offered(s.a, d, k);
    var u := AfterBacklog(s, out, [d[k..]]);
    BacklogKeeps(s, out, [d[k..]]);
    AbortKeeps(u, true);
    var v := ApplyA(u, Abort(true));
    AbortKeeps(v, true);
    assert ApplyA(v, Abort(true)) == Sent(Taken(s), Close(s.a.(out := out), true));
  }

  lemma ArriveWrite(s: Stream, accept: bool, env: seq<WriteResult>)
    requires Inv(s) && s.ba != [] && s.ba[0].MWrite? && s.a.phase.Linked?
    ensures Inv(ApplyA(s, Arrive(accept, env)))
  {
    hide Inv, FirstWrite, Payload, Joined, Close;
    var d := s.ba[0].data;
    var t := ApplyA(s, Arrive(accept, env));
    if s.a.queue != [] {
      JoinedAppend(s.a.queue, [d]);
      JoinedOne(d);
      Assoc(Payload(s.a.out), Joined(s.a.queue), d);
      BacklogKeeps(s, s.a.out, s.a.queue + [d]);
      assert t == AfterBacklog(s, s.a.out, s.a.queue + [d]);
    } else {
      var w := FirstWrite(d, env);
      var out := s.a.out + [Chunk(d[..w.0])];
      Offered(s.a, d, w.0);
      match w.1
      case Drained =>
        WrittenKeeps(s, out);
        assert t == AfterWritten(s, out);
      case Blocked =>
        BacklogKeeps(s, out, [d[w.0..]]);
        assert t == AfterBacklog(s, out, [d[w.0..]]);
      case Broken =>
        BrokenKeeps(s, w.0);
    }
  }

  lemma CloseHeardShapes(s: Stream)
    requires Shapes(s) && s.ba != [] && s.ba[0] == MClose && s.a.phase.Linked?
    ensures s.ba == [MClose] && Closed(s.b)
    ensures Shapes(Sent(Taken(s), Close(s.a, false)))
  {
    hide Payload;
  }

  lemma CloseHeardDatas(s: Stream)
    requires Shapes(s) && Datas(s) && s.ba != [] && s.ba[0] == MClose && s.a.phase.Linked?
    ensures Datas(Sent(Taken(s), Close(s.a, false)))
  {
    CloseHeardShapes(s);
    var t := Sent(Taken(s), Close(s.a, false));
    ChannelSums(s.ab, [MClose]);
    assert Carried(s.ba) == [] && Carried(t.ba) == [] && Carried(t.ab) == Carried(s.ab);
    assert Landed(t.a) == Landed(s.a);
    hide Shape, Landed, Carried, Writes, Okays;
  }

  lemma ArriveKeeps(s: Stream, accept: bool, env: seq<WriteResult>)
    requires Inv(s) && s.ba != []
    ensures Inv(ApplyA(s, Arrive(accept, env)))
  {
    var t := ApplyA(s, Arrive(accept, env));
    if s.ba[0] == MOpen {
      ArriveOpen(s, accept, env);
    } else if s.ba[0] == MReject {
      ArriveReject(s, accept, env);
    } else if Closed(s.a) {
      DropKeeps(s);
      assert t == Taken(s);
    } else if s.ba[0] == MOkay {
      OkayKeeps(s);
      assert t == AfterOkay(s);
    } else if s.ba[0] == MClose {
      CloseHeardShapes(s);
      CloseHeardDatas(s);
      assert t == Sent(Taken(s), Close(s.a, false));
    } else {
      ArriveWrite(s, accept, env);
    }
  }

  lemma StepKeepsA(s: Stream, e: Event)
    requires Inv(s) && EnabledA(s, e)
    ensures Inv(ApplyA(s, e))
  {
    hide Inv;
    match e
    case Dial(awaiting) => DialKeeps(s, awaiting);
    case Arrive(accept, env) => ArriveKeeps(s, accept, env);
    case Readable(env) => ReadableKeeps(s, env);
    case Writable(env) => WritableKeeps(s, env);
    case Abort(notify) => AbortKeeps(s, notify);
    case Lose => LoseKeeps(s);
  }

  lemma FlipInv(s: Stream)
    ensures Inv(Flip(s)) <==> Inv(s)
  {
  }

  /** Every step at either end keeps the invariant. */
  lemma StepKeeps(s: Stream, st: Step)
    requires Inv(s) && Enabled(s, st)
    ensures Inv(Apply(s, st))
  {
    if st.atA {
      StepKeepsA(s, st.event);
    } else {
      FlipInv(s);
      StepKeepsA(Flip(s), st.event);
      FlipInv(ApplyA(Flip(s), st.event));
    }
  }
}
