/**
 What one local socket does, as functions on values: the two write loops, the read loop and
 the handlers of src/sockets.c. `Host` runs the same steps on its fields and is proved
 against these functions; `Stream` and `Link` build their state machines from them.

 System calls are results chosen by the environment: a list of outcomes, taken in order. A list
 that has run out answers "would block", so every finite behaviour of the descriptor is covered.
 */
module SocketSpec {
  import opened Octets
  import opened Lists

  /** Outcomes of adb_write: a positive count, EAGAIN, EINTR, or zero and any other error. */
  datatype WriteResult = Wrote(n: nat) | WriteAgain | WriteIntr | WriteFail

  /** Outcomes of adb_read: some bytes, EAGAIN, EINTR, or end of file and any other error. */
  datatype ReadResult = GotBytes(data: bytes) | ReadAgain | ReadIntr | ReadEnd

  datatype Verdict = Drained | Blocked | Broken

  datatype Phase = Fresh | Connecting | Linked | Draining | Gone

  /** What has been written to the descriptor: a status for the client, or stream data. */
  datatype FdWrite = OkayStatus | FailStatus | Chunk(data: bytes)

  /**
   A local socket. `awaiting` holds while the notify handlers are installed. `got`, `out`, `ever`,
   `fault` and `lost` are history: the bytes read from the descriptor, what was written to it,
   whether the socket was ever linked, whether this side closed of its own accord, and whether that
   was because its transport went.
   */
  datatype Sock = Sock(phase: Phase, awaiting: bool, wantRead: bool, queue: seq<bytes>,
                       got: bytes, out: seq<FdWrite>, ever: bool, fault: bool, lost: bool)

  /** Packets of one stream, without their ids. MReject is CLOSE(0, id). */
  datatype Msg = MOpen | MOkay | MWrite(data: bytes) | MClose | MReject

  datatype Reply = Reply(sock: Sock, msgs: seq<Msg>)

  const FreshSock: Sock := Sock(Fresh, false, false, [], [], [], false, false, false)

  /** The service side of an OPEN: linked and ready at once (src/adb.c:595-598). */
  const ServiceSock: Sock := Sock(Linked, false, true, [], [], [], true, false, false)

  function DialSock(awaiting: bool): Sock {
    Sock(Connecting, awaiting, false, [], [], [], false, false, false)
  }

  predicate Active(s: Sock) {
    s.phase.Connecting? || s.phase.Linked?
  }

  function Payload(out: seq<FdWrite>): bytes {
    if out == [] then []
    else Payload(out[..|out| - 1]) +
         (match out[|out| - 1] case Chunk(d) => d case _ => [])
  }

  /** A kernel returns between one byte and all that was offered. */
  function Clip(n: nat, len: nat): (k: nat)
    requires len > 0
    ensures 1 <= k <= len
  {
    if n == 0 then 1 else if n > len then len else n
  }

  /** The write loop of local_socket_enqueue: EINTR counts as an error there. */
  function FirstWrite(data: bytes, env: seq<WriteResult>): (r: (nat, Verdict))
    ensures r.0 <= |data|
    ensures r.1.Drained? ==> r.0 == |data|
    ensures !r.1.Drained? ==> r.0 < |data|
    decreases |env|
  {
    if data == [] then (0, Drained)
    else if env == [] then (0, Blocked)
    else match env[0]
      case Wrote(n) =>
        var k := Clip(n, |data|);
        var r := FirstWrite(data[k..], env[1..]);
        (k + r.0, r.1)
      case WriteAgain => (0, Blocked)
      case _ => (0, Broken)
  }

  datatype Drain = Drain(sent: bytes, rest: seq<bytes>, verdict: Verdict)

  /** The write loop of local_socket_event_func: EINTR is retried. */
  function DrainQueue(q: seq<bytes>, env: seq<WriteResult>): (r: Drain)
    ensures r.sent + Joined(r.rest) == Joined(q)
    ensures r.verdict.Drained? <==> r.rest == []
    ensures |r.rest| <= |q|
    decreases |q| + |env|
  {
    if q == [] then Drain([], [], Drained)
    else if q[0] == [] then DrainQueue(q[1..], env)
    else if env == [] then Drain([], q, Blocked)
    else match env[0]
      case Wrote(n) =>
        var k := Clip(n, |q[0]|);
        var r := DrainQueue([q[0][k..]] + q[1..], env[1..]);
        assert ([q[0][k..]] + q[1..])[1..] == q[1..];
        assert q[0][..k] + r.sent + Joined(r.rest) == q[0][..k] + (q[0][k..] + Joined(q[1..]));
        assert q[0] == q[0][..k] + q[0][k..];
        Drain(q[0][..k] + r.sent, r.rest, r.verdict)
      case WriteAgain => Drain([], q, Blocked)
      case WriteIntr => DrainQueue(q, env[1..])
      case WriteFail => Drain([], q, Broken)
  }

  /** The read loop of local_socket_event_func: the bytes of one packet, and whether it saw the end. */
  function ReadUp(avail: nat, env: seq<ReadResult>): (r: (bytes, bool))
    ensures |r.0| <= avail
    decreases |env|
  {
    if avail == 0 || env == [] then ([], false)
    else match env[0]
      case GotBytes(d) =>
        if d == [] then ([], true)
        else
          var k := if |d| > avail then avail else |d|;
          var r := ReadUp(avail - k, env[1..]);
          (d[..k] + r.0, r.1)
      case ReadAgain => ([], false)
      case ReadIntr => ReadUp(avail, env[1..])
      case ReadEnd => ([], true)
  }

  /** local_socket_ready, or local_socket_ready_notify while the notify handlers are installed. */
  function Ready(s: Sock): Sock {
    if s.awaiting then s.(awaiting := false, out := s.out + [OkayStatus], wantRead := true)
    else s.(wantRead := true)
  }

  /** local_socket_close_locked: tell the far side, then die or drain. */
  function CloseLocked(s: Sock, fault: bool): Reply {
    var msgs := if s.phase.Linked? then [MClose] else [];
    var t := s.(awaiting := false, wantRead := false, fault := s.fault || fault);
    if s.phase.Draining? || s.queue == [] then Reply(t.(phase := Gone, queue := []), msgs)
    else Reply(t.(phase := Draining), msgs)
  }

  /** s->close(s): local_socket_close, or local_socket_close_notify while the client awaits a status. */
  function Close(s: Sock, fault: bool): Reply {
    CloseLocked(if s.awaiting then s.(out := s.out + [FailStatus]) else s, fault)
  }

  /** remote_socket_disconnect: the transport has gone, and nothing is said to the far side. */
  function Lost(s: Sock): Sock {
    CloseLocked(s.(lost := true), true).sock
  }

  /** READY from the far side, first or later. */
  function OnOkay(s: Sock): Sock {
    if s.phase.Connecting? then Ready(s.(phase := Linked, ever := true)) else Ready(s)
  }

  /** local_socket_enqueue and the READY that answers it when everything was written. */
  function OnWrite(s: Sock, data: bytes, env: seq<WriteResult>): Reply {
    if s.queue != [] then Reply(s.(queue := s.queue + [data]), [])
    else
      var w := FirstWrite(data, env);
      var t := s.(out := s.out + [Chunk(data[..w.0])]);
      match w.1
      case Drained => Reply(t, [MOkay])
      case Blocked => Reply(t.(queue := [data[w.0..]]), [])
      case Broken => Close(t, true)
  }

  /** The FDE_WRITE half of local_socket_event_func. */
  function OnWritable(s: Sock, env: seq<WriteResult>): Reply {
    var d := DrainQueue(s.queue, env);
    var t := s.(out := s.out + [Chunk(d.sent)], queue := d.rest);
    match d.verdict
    case Blocked => Reply(t, [])
    case Broken => Close(t, true)
    case Drained => if s.phase.Draining? then Close(t, false) else Reply(t, [MOkay])
  }

  /** The FDE_READ half of local_socket_event_func, for a socket linked to a remote one. */
  function OnReadable(s: Sock, env: seq<ReadResult>): Reply {
    var r := ReadUp(MAX_PAYLOAD, env);
    var t := if r.0 == [] then s else s.(got := s.got + r.0, wantRead := false);
    var msgs := if r.0 == [] then [] else [MWrite(r.0)];
    if r.1 then
      var c := Close(t, true);
      Reply(c.sock, msgs + c.msgs)
    else Reply(t, msgs)
  }

  /**
   One packet of the stream reaching this side; `accept` is whether the service named by an OPEN
   could be started.
   */
  function Receive(s: Sock, m: Msg, accept: bool, env: seq<WriteResult>): Reply {
    match m
    case MOpen =>
      if !s.phase.Fresh? then Reply(s, [])
      else if accept then Reply(ServiceSock, [MOkay])
      else Reply(s, [MReject])
    case MOkay => if Active(s) then Reply(OnOkay(s), []) else Reply(s, [])
    case MWrite(d) => if s.phase.Linked? then OnWrite(s, d, env) else Reply(s, [])
    case MClose => if s.phase.Linked? then Close(s, false) else Reply(s, [])
    case MReject => if Active(s) then Close(s, false) else Reply(s, [])
  }
}
