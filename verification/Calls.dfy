/**
 What the descriptor loops of `SocketSpec` come to, told from the system calls alone: which bytes a
 read loop has, how many bytes a write loop got rid of, and how each ended. A loop takes calls up to the
 first that stops it; what the later ones would have said does not matter.
 */
module Calls {
  import opened Octets
  import opened Lists
  import opened SocketSpec

  /** How many calls there are before the first that stops the loop. */
  function Before<T>(env: seq<T>, stops: T -> bool): (n: nat)
    ensures n <= |env|
    ensures forall i :: 0 <= i < n ==> !stops(env[i])
    ensures n < |env| ==> stops(env[n])
  {
    if env == [] || stops(env[0]) then 0 else 1 + Before(env[1..], stops)
  }

  /** The calls before the first that stops the loop. */
  function Prior<T>(env: seq<T>, stops: T -> bool): seq<T> {
    env[..Before(env, stops)]
  }

  /** The call that stops the loop, if any does. */
  function Stopper<T>(env: seq<T>, stops: T -> bool): (r: Option<T>)
    ensures r.None? <==> forall c :: c in env ==> !stops(c)
    ensures r.Some? ==> stops(r.value)
  {
    if Before(env, stops) < |env| then Some(env[Before(env, stops)]) else None
  }

  lemma StopAtOnce<T>(env: seq<T>, stops: T -> bool)
    requires env != [] && stops(env[0])
    ensures Prior(env, stops) == [] && Stopper(env, stops) == Some(env[0])
  {
  }

  lemma GoOn<T>(env: seq<T>, stops: T -> bool)
    requires env != [] && !stops(env[0])
    ensures Prior(env, stops) == [env[0]] + Prior(env[1..], stops)
    ensures Stopper(env, stops) == Stopper(env[1..], stops)
  {
  }

  // ---- reading ----

  function Least(a: nat, b: nat): nat {
    if a < b then a else b
  }

  function DataOf(c: ReadResult): bytes {
    if c.GotBytes? then c.data else []
  }

  /** An empty read is the end of the file. EINTR is the one failure that is tried again. */
  predicate StopsReads(c: ReadResult) {
    c == GotBytes([]) || c.ReadAgain? || c.ReadEnd?
  }

  function Pieces(env: seq<ReadResult>): (r: seq<bytes>)
    ensures |r| == |env| && forall i :: 0 <= i < |env| ==> r[i] == DataOf(env[i])
  {
    seq(|env|, i requires 0 <= i < |env| => DataOf(env[i]))
  }

  function Cut(data: bytes, len: nat): (r: bytes)
    ensures r <= data && |r| <= len && (|r| == len || r == data)
  {
    if |data| <= len then data else data[..len]
  }

  /** What the calls had to give before the first that stops the loop. */
  function Supply(env: seq<ReadResult>): bytes {
    Joined(Pieces(Prior(env, StopsReads)))
  }

  /** The bytes that the read calls of one event give: in the order of the calls, one packet at most. */
  function Given(env: seq<ReadResult>): bytes {
    Cut(Supply(env), MAX_PAYLOAD)
  }

  /** The read calls of one event come to the end of the file, or to an error. */
  predicate SeesEnd(env: seq<ReadResult>) {
    var stop := Stopper(env, StopsReads);
    |Supply(env)| < MAX_PAYLOAD && stop.Some? && !stop.value.ReadAgain?
  }

  lemma SupplyMore(env: seq<ReadResult>)
    requires env != [] && !StopsReads(env[0])
    ensures Supply(env) == DataOf(env[0]) + Supply(env[1..])
  {
    GoOn(env, StopsReads);
    var rest := Prior(env[1..], StopsReads);
    assert Pieces([env[0]] + rest) == [DataOf(env[0])] + Pieces(rest);
  }

  /**
   The read loop: it has what the calls gave, in their order and cut to the room there was; it saw the end exactly
   when there was room left and what stopped it was no EAGAIN.
   */
  lemma {:induction false} ReadUpIs(avail: nat, env: seq<ReadResult>)
    ensures ReadUp(avail, env).0 == Cut(Supply(env), avail)
    ensures ReadUp(avail, env).1 <==>
              |Supply(env)| < avail && Stopper(env, StopsReads).Some? && !Stopper(env, StopsReads).value.ReadAgain?
    decreases |env|
  {
    hide Supply, Stopper, Prior, Before, Cut;
    if env == [] || StopsReads(env[0]) {
      ReadOver(env);
    } else {
      GoOn(env, StopsReads);
      SupplyMore(env);
      if avail > 0 {
        var d := DataOf(env[0]);
        ReadUpIs(avail - Least(|d|, avail), env[1..]);
        CutMore(d, Supply(env[1..]), avail);
      }
    }
  }

  lemma ReadOver(env: seq<ReadResult>)
    requires env == [] || StopsReads(env[0])
    ensures Supply(env) == []
    ensures if env == [] then Stopper(env, StopsReads) == None else Stopper(env, StopsReads) == Some(env[0])
  {
    if env != [] {
      StopAtOnce(env, StopsReads);
    }
  }

  lemma CutMore(d: bytes, rest: bytes, avail: nat)
    ensures Cut(d + rest, avail) == d[..Least(|d|, avail)] + Cut(rest, avail - Least(|d|, avail))
  {
  }

  // ---- writing ----

  /** Any failure ends the loop of local_socket_enqueue. */
  predicate StopsFirst(c: WriteResult) {
    !c.Wrote?
  }

  /** EINTR does not end the loop of local_socket_event_func. */
  predicate StopsDrain(c: WriteResult) {
    c.WriteAgain? || c.WriteFail?
  }

  /** A call that succeeds took a byte at least. */
  function Count(c: WriteResult): nat {
    if c.Wrote? then (if c.n == 0 then 1 else c.n) else 0
  }

  function Sum(env: seq<WriteResult>): nat {
    if env == [] then 0 else Count(env[0]) + Sum(env[1..])
  }

  /** How a write loop ends whose calls took all there was, or not. */
  function Ending(all: bool, stop: Option<WriteResult>): Verdict {
    if all then Drained else if stop.None? || stop.value.WriteAgain? then Blocked else Broken
  }

  /** The bytes that the first write of a packet gets rid of. */
  function TakenFirst(data: bytes, env: seq<WriteResult>): (r: bytes)
    ensures r <= data
  {
    data[..Least(Sum(Prior(env, StopsFirst)), |data|)]
  }

  /** The write loop of a packet: as many bytes as the calls took, and all of them exactly if the calls took as many. */
  lemma {:induction false} FirstWriteIs(data: bytes, env: seq<WriteResult>)
    ensures FirstWrite(data, env).0 == Least(Sum(Prior(env, StopsFirst)), |data|)
    ensures data[..FirstWrite(data, env).0] == TakenFirst(data, env)
    ensures FirstWrite(data, env).1 ==
            Ending(Sum(Prior(env, StopsFirst)) >= |data|, Stopper(env, StopsFirst))
    decreases |env|
  {
    if env == [] {
    } else if StopsFirst(env[0]) {
      StopAtOnce(env, StopsFirst);
    } else {
      GoOn(env, StopsFirst);
      if data != [] {
        var k := Clip(env[0].n, |data|);
        FirstWriteIs(data[k..], env[1..]);
      }
    }
  }

  /** The rest of the packet that byte `at` of the backlog is in: what a write call is offered there. */
  function Offer(q: seq<bytes>, at: nat): (n: nat)
    ensures if at < |Joined(q)| then 0 < n <= |Joined(q)| - at else n == 0
  {
    if q == [] then 0
    else if at < |q[0]| then |q[0]| - at
    else Offer(q[1..], at - |q[0]|)
  }

  /** How many bytes of the backlog the calls took, each offered the rest of the packet in hand. */
  function Took(q: seq<bytes>, env: seq<WriteResult>): (n: nat)
    ensures n <= |Joined(q)|
  {
    if env == [] then 0
    else
      var n := Took(q, env[..|env| - 1]);
      n + Least(Count(env[|env| - 1]), Offer(q, n))
  }

  /** The bytes that the write calls of one event get rid of. */
  function TakenDrain(q: seq<bytes>, env: seq<WriteResult>): (r: bytes)
    ensures r <= Joined(q)
  {
    Joined(q)[..Took(q, Prior(env, StopsDrain))]
  }

  /** Part of the first packet has gone. */
  lemma OfferLater(q: seq<bytes>, k: nat, at: nat)
    requires q != [] && k <= |q[0]|
    ensures Offer([q[0][k..]] + q[1..], at) == Offer(q, k + at)
  {
    assert ([q[0][k..]] + q[1..])[1..] == q[1..];
  }

  lemma TookLast(q: seq<bytes>, env: seq<WriteResult>, last: WriteResult)
    ensures Took(q, env + [last]) == Took(q, env) + Least(Count(last), Offer(q, Took(q, env)))
  {
    assert (env + [last])[..|env|] == env;
  }

  /** The calls after the first, on what the first left. */
  lemma {:induction false} TookLater(q: seq<bytes>, first: WriteResult, env: seq<WriteResult>)
    requires q != [] && q[0] != []
    ensures var k := Least(Count(first), |q[0]|);
            Took(q, [first] + env) == k + Took([q[0][k..]] + q[1..], env)
    decreases |env|
  {
    hide Took, Joined, Offer;
    var k := Least(Count(first), |q[0]|);
    if env == [] {
      TookFirst(q, first, k);
    } else {
      var n := |env| - 1;
      TookLater(q, first, env[..n]);
      assert [first] + env == [first] + env[..n] + [env[n]] && env == env[..n] + [env[n]];
      TookLast(q, [first] + env[..n], env[n]);
      TookLast([q[0][k..]] + q[1..], env[..n], env[n]);
      OfferLater(q, k, Took([q[0][k..]] + q[1..], env[..n]));
    }
  }

  lemma TookFirst(q: seq<bytes>, first: WriteResult, k: nat)
    requires q != [] && q[0] != [] && k == Least(Count(first), |q[0]|)
    ensures Took(q, [first] + []) == k + Took([q[0][k..]] + q[1..], [])
  {
    hide Joined;
    TookLast(q, [], first);
    assert [first] + [] == [] + [first];
  }

  lemma {:induction false} TookEmpty(q: seq<bytes>, env: seq<WriteResult>)
    requires q != [] && q[0] == []
    ensures Took(q, env) == Took(q[1..], env)
    decreases |env|
  {
    hide Took, Joined;
    if env == [] {
      TookNothing(q);
      TookNothing(q[1..]);
    } else {
      var n := |env| - 1;
      TookEmpty(q, env[..n]);
      assert env == env[..n] + [env[n]];
      TookLast(q, env[..n], env[n]);
      TookLast(q[1..], env[..n], env[n]);
    }
  }

  lemma TookNothing(q: seq<bytes>)
    ensures Took(q, []) == 0
  {
  }

  lemma {:induction false} TookNone(env: seq<WriteResult>)
    ensures Took([], env) == 0
    decreases |env|
  {
    if env != [] {
      TookNone(env[..|env| - 1]);
    }
  }

  /** What is left of the backlog once `at` bytes have gone. */
  function LeftOver(q: seq<bytes>, at: nat): seq<bytes> {
    if q == [] then []
    else if at < |q[0]| then [q[0][at..]] + q[1..]
    else LeftOver(q[1..], at - |q[0]|)
  }

  /** One more call, as the loop and as the count have it. */
  lemma DrainMore(q: seq<bytes>, env: seq<WriteResult>, k: nat)
    requires q != [] && q[0] != [] && env != [] && !StopsDrain(env[0]) && k == Least(Count(env[0]), |q[0]|)
    ensures var r := DrainQueue([q[0][k..]] + q[1..], env[1..]);
            DrainQueue(q, env) == Drain(q[0][..k] + r.sent, r.rest, r.verdict)
  {
    hide Joined;
    if env[0].WriteIntr? {
      assert [q[0][k..]] + q[1..] == q;
    }
  }

  lemma PartGone(q: seq<bytes>, k: nat, n: nat)
    requires q != [] && k <= |q[0]| && n <= |Joined([q[0][k..]] + q[1..])|
    ensures |Joined(q)| == k + |Joined([q[0][k..]] + q[1..])|
    ensures Joined(q)[..k + n] == q[0][..k] + Joined([q[0][k..]] + q[1..])[..n]
    ensures LeftOver(q, k + n) == LeftOver([q[0][k..]] + q[1..], n)
  {
    assert ([q[0][k..]] + q[1..])[1..] == q[1..];
    assert q[0] == q[0][..k] + q[0][k..];
    assert Joined(q) == q[0][..k] + (q[0][k..] + Joined(q[1..]));
  }

  lemma NoCalls(q: seq<bytes>)
    requires q != [] && q[0] != []
    ensures Took(q, []) == 0 && LeftOver(q, 0) == q && Joined(q) != []
  {
  }

  /**
   The loop over the backlog: as many bytes as the calls took, packet by packet; the others stay in their packets;
   and it ends with none left exactly if the calls took as many as there were.
   */
  lemma {:induction false} DrainQueueIs(q: seq<bytes>, env: seq<WriteResult>)
    ensures DrainQueue(q, env).sent == TakenDrain(q, env)
    ensures DrainQueue(q, env).rest == LeftOver(q, Took(q, Prior(env, StopsDrain)))
    ensures DrainQueue(q, env).verdict ==
            Ending(TakenDrain(q, env) == Joined(q), Stopper(env, StopsDrain))
    decreases |q| + |env|
  {
    hide Took, Offer, Prior, Stopper, Before, Joined, LeftOver, DrainQueue;
    var prior := Prior(env, StopsDrain);
    if q == [] || q[0] == [] || env == [] || StopsDrain(env[0]) {
      DrainOver(q, env);
      if q != [] && q[0] == [] {
        DrainQueueIs(q[1..], env);
      }
    } else {
      GoOn(env, StopsDrain);
      var k := Least(Count(env[0]), |q[0]|);
      var later := [q[0][k..]] + q[1..];
      TookLater(q, env[0], Prior(env[1..], StopsDrain));
      DrainMore(q, env, k);
      PartGone(q, k, Took(later, Prior(env[1..], StopsDrain)));
      DrainQueueIs(later, env[1..]);
    }
  }

  /** Where the loop takes no call, or only drops an empty packet. */
  lemma DrainOver(q: seq<bytes>, env: seq<WriteResult>)
    requires q == [] || q[0] == [] || env == [] || StopsDrain(env[0])
    ensures var n := Took(q, Prior(env, StopsDrain));
            if q != [] && q[0] == [] then
              && DrainQueue(q, env) == DrainQueue(q[1..], env) && Joined(q) == Joined(q[1..])
              && n == Took(q[1..], Prior(env, StopsDrain)) && LeftOver(q, n) == LeftOver(q[1..], n)
            else
              && n == 0 && LeftOver(q, n) == q && (Joined(q) == [] <==> q == [])
              && DrainQueue(q, env) == Drain([], q, Ending(q == [], Stopper(env, StopsDrain)))
  {
    hide Took, Offer, Prior, Stopper, Before;
    if q == [] {
      TookNone(Prior(env, StopsDrain));
    } else if q[0] == [] {
      TookEmpty(q, Prior(env, StopsDrain));
    } else {
      NoCalls(q);
      if env == [] {
        NoStops();
      } else {
        StopAtOnce(env, StopsDrain);
      }
    }
  }

  lemma NoStops()
    ensures Prior<WriteResult>([], StopsDrain) == [] && Stopper<WriteResult>([], StopsDrain) == None
  {
  }
}
