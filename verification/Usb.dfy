/**
 How usb_write ends a transfer (src/usb_linux.c:258-262, 437-473). A bulk transfer goes out in packets of
 the endpoint's size; the receiver knows it is over when a packet is short (section 5.8.3 of the USB
 2.0 specification), so a transfer that fills its packets needs an empty one behind it.
 */
module Usb {
  import opened Arith
  import opened Lists
  import opened Octets

  const CHUNK: nat := 4096

  /** Bitwise and. */
  function And(a: nat, b: nat): nat
    decreases a
  {
    if a == 0 then 0 else (if a % 2 == 1 && b % 2 == 1 then 1 else 0) + 2 * And(a / 2, b / 2)
  }

  lemma AndOdd(a: nat, m: nat)
    requires m > 0
    ensures And(a, 2 * m - 1) == a % 2 + 2 * And(a / 2, m - 1)
  {
    assert (2 * m - 1) / 2 == m - 1 && (2 * m - 1) % 2 == 1;
  }

  /** The mask of a power of two takes the remainder. */
  lemma {:induction false} MaskIsModulus(a: nat, k: nat)
    ensures And(a, Pow(2, k) - 1) == a % Pow(2, k)
    decreases k
  {
    if k == 0 {
      AndZero(a);
    } else {
      hide And;
      MaskIsModulus(a / 2, k - 1);
      AndOdd(a, Pow(2, k - 1));
      DoubleModulus(a, Pow(2, k - 1));
    }
  }

  lemma {:induction false} AndZero(a: nat)
    ensures And(a, 0) == 0
  {
    if a > 0 {
      AndZero(a / 2);
    }
  }

  lemma DoubleModulus(a: nat, m: nat)
    requires m > 0
    ensures a % (2 * m) == a % 2 + 2 * ((a / 2) % m)
  {
    var q := (a / 2) / m;
    var r := (a / 2) % m;
    assert a == (2 * m) * q + (a % 2 + 2 * r) by {
      assert a / 2 == m * q + r;
    }
    ModUnique(a, 2 * m, q, a % 2 + 2 * r);
  }

  /** The packets of one transfer; an empty transfer is one empty packet. */
  function Packets(t: bytes, m: nat): (ps: seq<bytes>)
    requires m > 0
    decreases |t|
  {
    if |t| <= m then [t] else [t[..m]] + Packets(t[m..], m)
  }

  function OnWire(ts: seq<bytes>, m: nat): seq<bytes>
    requires m > 0
  {
    if ts == [] then [] else OnWire(ts[..|ts| - 1], m) + Packets(ts[|ts| - 1], m)
  }

  /** Every packet is full. */
  ghost predicate AllFull(ps: seq<bytes>, m: nat) {
    forall i :: 0 <= i < |ps| ==> |ps[i]| == m
  }

  /** Exactly one packet is short, and it is the last. */
  ghost predicate Terminated(ps: seq<bytes>, m: nat) {
    ps != [] && |ps[|ps| - 1]| < m && AllFull(ps[..|ps| - 1], m)
  }

  /** The packets carry the transfer; all are full when it is a multiple of their size, else the last is short. */
  lemma {:induction false} PacketsDo(t: bytes, m: nat)
    requires m > 0
    ensures Joined(Packets(t, m)) == t && Packets(t, m) != []
    ensures |t| > 0 && |t| % m == 0 ==> AllFull(Packets(t, m), m)
    ensures |t| == 0 || |t| % m != 0 ==> Terminated(Packets(t, m), m)
    decreases |t|
  {
    if |t| <= m {
      assert [t][..0] == [];
      OwnModulus(|t|, m);
    } else {
      var rest := Packets(t[m..], m);
      PacketsDo(t[m..], m);
      SubtractModulus(|t|, m);
      assert t == t[..m] + t[m..];
      OnePacketMore(t[..m], rest, m);
    }
  }

  lemma OnePacketMore(p: bytes, rest: seq<bytes>, m: nat)
    requires |p| == m && rest != []
    ensures Joined([p] + rest) == p + Joined(rest)
    ensures AllFull(rest, m) ==> AllFull([p] + rest, m)
    ensures Terminated(rest, m) ==> Terminated([p] + rest, m)
  {
    hide Joined;
    JoinedOne(p);
    JoinedAppend([p], rest);
    var all := [p] + rest;
    var k := |rest| - 1;
    assert all[..k + 1] == [p] + rest[..k] && all[k + 1] == rest[k];
    assert AllFull([p] + rest[..k], m) || !AllFull(rest[..k], m);
  }

  lemma OwnModulus(a: nat, m: nat)
    requires 0 < m && a <= m
    ensures a % m == if a == m then 0 else a
  {
    ModUnique(a, m, if a == m then 1 else 0, if a == m then 0 else a);
  }

  lemma SubtractModulus(a: nat, m: nat)
    requires 0 < m <= a
    ensures (a - m) % m == a % m
  {
    var q := (a - m) / m;
    var r := (a - m) % m;
    assert a == m * (q + 1) + r;
    ModUnique(a, m, q + 1, r);
  }

  lemma {:induction false} ChunksModulus(n: nat, r: nat, m: nat)
    requires m > 0 && CHUNK % m == 0
    ensures (CHUNK * n + r) % m == r % m
    decreases n
  {
    if n > 0 {
      ChunksModulus(n - 1, r, m);
      var c := CHUNK / m;
      var a := CHUNK * (n - 1) + r;
      assert CHUNK == m * c;
      assert a + CHUNK == m * (a / m + c) + a % m;
      ModUnique(a + CHUNK, m, a / m + c, a % m);
    }
  }

  lemma PowerDivides(k: nat)
    requires Pow(2, k) <= CHUNK
    ensures CHUNK % Pow(2, k) == 0
  {
    if k > 12 {
      PowerGrows(13, k);
    }
    assert Pow(2, 0) == 1 && Pow(2, 1) == 2 && Pow(2, 2) == 4 && Pow(2, 3) == 8 && Pow(2, 4) == 16 && Pow(2, 5) == 32;
    assert Pow(2, 6) == 64 && Pow(2, 7) == 128 && Pow(2, 8) == 256 && Pow(2, 9) == 512 && Pow(2, 10) == 1024;
    assert Pow(2, 11) == 2048 && Pow(2, 12) == 4096 && Pow(2, 13) == 8192;
  }

  lemma {:induction false} PowerGrows(j: nat, k: nat)
    requires j <= k
    ensures Pow(2, j) <= Pow(2, k)
    decreases k - j
  {
    if j < k {
      PowerGrows(j, k - 1);
    }
  }

  /** The endpoint: `sent` are the transfers that went through, `io` the outcomes of the coming ones. */
  class Handle {
    const zeroMask: nat
    var sent: seq<bytes>
    var io: seq<bool>

    /** The mask is set for protocol 1 only, which asks for termination. */
    constructor (maxPacket: nat, protocol: nat, io: seq<bool>)
      requires maxPacket > 0
      ensures zeroMask == (if protocol == 1 then maxPacket - 1 else 0) && sent == [] && this.io == io
    {
      zeroMask := if protocol == 1 then maxPacket - 1 else 0;
      sent, this.io := [], io;
    }

    method BulkWrite(data: bytes) returns (n: int)
      modifies this
      ensures n == |data| || n == -1
      ensures sent == if n == |data| then old(sent) + [data] else old(sent)
      ensures Sound(old(io)) ==> n == |data| && Sound(io)
    {
      if io != [] && !io[0] {
        io := io[1..];
        return -1;
      }
      io := if io == [] then [] else io[1..];
      sent := sent + [data];
      return |data|;
    }

    /**
     For a power-of-two packet size up to 4096 and larger than 1: a successful write puts exactly the
     data on the wire, with exactly one short packet, the last, if and only if the interface asks for
     termination or the data does not fill its packets.
     */
    method UsbWrite(data: bytes, k: nat) returns (r: int)
      requires 1 < Pow(2, k) <= CHUNK
      requires zeroMask == Pow(2, k) - 1 || zeroMask == 0
      modifies this
      ensures r == 0 || r == -1
      ensures Sound(old(io)) ==> r == 0
      ensures old(sent) <= sent && forall i :: |old(sent)| <= i < |sent| ==> |sent[i]| <= 4096
      ensures var wire := OnWire(sent[|old(sent)|..], Pow(2, k));
              r == 0 ==>
                && Joined(wire) == data
                && (Terminated(wire, Pow(2, k)) <==> zeroMask != 0 || |data| % Pow(2, k) != 0)
    {
      hide And, Packets, Joined, Terminated, AllFull;
      var m := Pow(2, k);
      MaskIsModulus(|data|, k);
      PowerDivides(k);
      NothingSent(m);
      hide Pow, OnWire;
      var needZero := zeroMask != 0 && And(|data|, zeroMask) == 0;
      var done, chunks := 0, 0;
      ghost var mine: seq<bytes> := [];
      while |data| - done > 0
        invariant sent == old(sent) + mine && (forall i :: 0 <= i < |mine| ==> |mine[i]| <= CHUNK)
        invariant Sound(old(io)) ==> Sound(io)
        invariant done <= |data| && Joined(OnWire(mine, m)) == data[..done]
        invariant done < |data| ==> done == CHUNK * chunks && AllFull(OnWire(mine, m), m)
        invariant done == |data| ==> Ends(OnWire(mine, m), |data|, m)
      {
        var xfer := if |data| - done > CHUNK then CHUNK else |data| - done;
        var chunk := data[done..done + xfer];
        var n := BulkWrite(chunk);
        if n != xfer { return -1; }
        SentMore(mine, chunk, m);
        mine := mine + [chunk];
        ChunksModulus(chunks, xfer, m);
        assert data[..done] + chunk == data[..done + xfer];
        done, chunks := done + xfer, chunks + 1;
      }
      assert data[..done] == data;
      if needZero {
        r := BulkWrite([]);
        SentMore(mine, [], m);
        assert data + [] == data;
        assert r == 0 ==> sent[|old(sent)|..] == mine + [[]];
        return;
      }
      assert sent[|old(sent)|..] == mine;
      return 0;
    }
  }

  /** None of the coming transfers fails. */
  ghost predicate Sound(io: seq<bool>) {
    forall i :: 0 <= i < |io| ==> io[i]
  }

  /** After n bytes: full packets only, or a short one at the end. */
  ghost predicate Ends(w: seq<bytes>, n: nat, m: nat)
    requires m > 0
  {
    if n % m == 0 then AllFull(w, m) && !Terminated(w, m) else Terminated(w, m)
  }

  lemma NothingSent(m: nat)
    requires m > 0
    ensures Joined(OnWire([], m)) == [] && AllFull(OnWire([], m), m) && Ends(OnWire([], m), 0, m)
  {
    OwnModulus(0, m);
  }

  /** One more transfer behind full packets. */
  lemma SentMore(ts: seq<bytes>, t: bytes, m: nat)
    requires m > 0 && AllFull(OnWire(ts, m), m)
    ensures var w := OnWire(ts + [t], m);
            && Joined(w) == Joined(OnWire(ts, m)) + t
            && (|t| > 0 && |t| % m == 0 ==> AllFull(w, m) && !Terminated(w, m))
            && (|t| == 0 || |t| % m != 0 ==> Terminated(w, m))
  {
    assert (ts + [t])[..|ts|] == ts;
    var a, b := OnWire(ts, m), Packets(t, m);
    assert OnWire(ts + [t], m) == a + b;
    hide Joined, Packets, OnWire;
    PacketsDo(t, m);
    JoinedAppend(a, b);
    var k := |b| - 1;
    assert (a + b)[..|a| + k] == a + b[..k] && (a + b)[|a| + k] == b[k];
  }
}
