/**
 Packets on a byte stream: send_packet, the read and write loops, the header and data checks and the
 framing of src/transport_local.c (src/transport.c:217-231, 1140-1236; src/transport_local.c:58-105).
 */
module Codec {
  import opened Arith
  import opened Octets
  import opened Lists

  const WORD: int := 0x1_0000_0000

  type word = x: int | 0 <= x < 0x1_0000_0000

  const HEADER: nat := 24

  datatype Packet = Packet(command: word, arg0: word, arg1: word, data: bytes)

  /** amessage. */
  datatype Message = Message(command: word, arg0: word, arg1: word, length: word, check: word, magic: word)

  // ---- words and checksums ----

  function Le(w: word): (b: bytes)
    ensures |b| == 4
  {
    [(w % 256) as byte, (w / 0x100 % 256) as byte, (w / 0x1_0000 % 256) as byte, (w / 0x100_0000) as byte]
  }

  function UnLe(b: bytes): word
    requires |b| == 4
  {
    b[0] as int + b[1] as int * 0x100 + b[2] as int * 0x1_0000 + b[3] as int * 0x100_0000
  }

  lemma LeRoundTrip(w: word)
    ensures UnLe(Le(w)) == w
  {
    Digits256(w);
  }

  lemma Digits256(w: int)
    ensures w == w % 256 + w / 0x100 % 256 * 0x100 + w / 0x1_0000 % 256 * 0x1_0000 + w / 0x100_0000 * 0x100_0000
  {
    assert w / 0x1_0000 == w / 0x100 / 256;
    assert w / 0x100_0000 == w / 0x1_0000 / 256;
  }

  lemma UnLeRoundTrip(b: bytes)
    requires |b| == 4
    ensures Le(UnLe(b)) == b
  {
    var w := UnLe(b);
    assert w / 0x100_0000 == b[3] as int;
    assert w / 0x1_0000 == b[3] as int * 256 + b[2] as int;
    assert w / 0x100 == b[3] as int * 0x1_0000 + b[2] as int * 0x100 + b[1] as int;
  }

  /** The exclusive or of a command with all ones. */
  function Magic(command: word): word {
    XorIsComplement(command);
    Xor(command, 0xffff_ffff)
  }

  lemma XorIsComplement(command: word)
    ensures Xor(command, 0xffff_ffff) == 0xffff_ffff - command
  {
    PowerOf32();
    XorOnes(command, 32);
  }

  lemma MagicIsComplement(command: word)
    ensures Magic(command) == 0xffff_ffff - command
  {
    XorIsComplement(command);
  }

  function Sum(data: bytes): nat {
    if data == [] then 0 else Sum(data[..|data| - 1]) + data[|data| - 1] as nat
  }

  lemma {:induction false} SumBound(data: bytes)
    ensures Sum(data) <= 255 * |data|
  {
    if data != [] {
      SumBound(data[..|data| - 1]);
    }
  }

  /** A payload's checksum never wraps. */
  lemma SumFits(data: bytes)
    requires |data| <= MAX_PAYLOAD
    ensures Sum(data) < WORD
  {
    SumBound(data);
  }

  lemma {:induction false} SumUpdate(data: bytes, i: nat, b: byte)
    requires i < |data|
    ensures Sum(data[i := b]) == Sum(data) - data[i] as int + b as int
  {
    var n := |data| - 1;
    if i == n {
      assert data[i := b][..n] == data[..n];
    } else {
      assert data[i := b][..n] == data[..n][i := b];
      SumUpdate(data[..n], i, b);
    }
  }

  /** The loop of send_packet and check_data, on a 32-bit sum. */
  method Checksum(data: bytes) returns (sum: word)
    ensures sum == Sum(data) % WORD
    ensures |data| <= MAX_PAYLOAD ==> sum == Sum(data)
  {
    sum := 0;
    for k := 0 to |data|
      invariant sum == Sum(data[..k]) % WORD
    {
      assert data[..k + 1][..k] == data[..k];
      sum := (sum + data[k] as int) % WORD;
    }
    assert data[..|data|] == data;
    if |data| <= MAX_PAYLOAD {
      SumFits(data);
    }
  }

  // ---- packets as bytes ----

  function Header(m: Message): (b: bytes)
    ensures |b| == HEADER
  {
    Le(m.command) + Le(m.arg0) + Le(m.arg1) + Le(m.length) + Le(m.check) + Le(m.magic)
  }

  function ParseHeader(b: bytes): Message
    requires |b| == HEADER
  {
    Message(UnLe(b[0..4]), UnLe(b[4..8]), UnLe(b[8..12]), UnLe(b[12..16]), UnLe(b[16..20]), UnLe(b[20..24]))
  }

  lemma HeaderRoundTrip(m: Message)
    ensures ParseHeader(Header(m)) == m
  {
    hide Le, UnLe;
    var b := Header(m);
    assert b[0..4] == Le(m.command) && b[4..8] == Le(m.arg0) && b[8..12] == Le(m.arg1);
    assert b[12..16] == Le(m.length) && b[16..20] == Le(m.check) && b[20..24] == Le(m.magic);
    LeRoundTrip(m.command);
    LeRoundTrip(m.arg0);
    LeRoundTrip(m.arg1);
    LeRoundTrip(m.length);
    LeRoundTrip(m.check);
    LeRoundTrip(m.magic);
  }

  lemma ParseRoundTrip(b: bytes)
    requires |b| == HEADER
    ensures Header(ParseHeader(b)) == b
  {
    hide Le, UnLe;
    UnLeRoundTrip(b[0..4]);
    UnLeRoundTrip(b[4..8]);
    UnLeRoundTrip(b[8..12]);
    UnLeRoundTrip(b[12..16]);
    UnLeRoundTrip(b[16..20]);
    UnLeRoundTrip(b[20..24]);
    assert b == b[0..4] + b[4..8] + b[8..12] + b[12..16] + b[16..20] + b[20..24];
  }

  function MessageOf(p: Packet): Message
    requires |p.data| <= MAX_PAYLOAD
  {
    SumFits(p.data);
    Message(p.command, p.arg0, p.arg1, |p.data|, Sum(p.data), Magic(p.command))
  }

  function Encode(p: Packet): bytes
    requires |p.data| <= MAX_PAYLOAD
  {
    Header(MessageOf(p)) + p.data
  }

  predicate HeaderOk(m: Message) {
    m.magic == Magic(m.command) && m.length <= MAX_PAYLOAD
  }

  /** One packet off the front of a stream, or none if the stream is too short or a check fails. */
  function Decode(s: bytes): Option<(Packet, bytes)> {
    if |s| < HEADER then None
    else
      var m := ParseHeader(s[..HEADER]);
      if !HeaderOk(m) || |s| < HEADER + m.length then None
      else
        var data := s[HEADER..HEADER + m.length];
        if Sum(data) != m.check then None
        else Some((Packet(m.command, m.arg0, m.arg1, data), s[HEADER + m.length..]))
  }

  lemma DecodeEncode(p: Packet, rest: bytes)
    requires |p.data| <= MAX_PAYLOAD
    ensures Decode(Encode(p) + rest) == Some((p, rest))
  {
    hide Header, ParseHeader;
    var s := Encode(p) + rest;
    assert s[..HEADER] == Header(MessageOf(p));
    HeaderRoundTrip(MessageOf(p));
    assert s[HEADER..HEADER + |p.data|] == p.data;
    assert s[HEADER + |p.data|..] == rest;
  }

  /** Accepted bytes are exactly what the packet they decode to is sent as. */
  lemma EncodeDecode(s: bytes)
    requires Decode(s).Some?
    ensures var (p, rest) := Decode(s).value; |p.data| <= MAX_PAYLOAD && s == Encode(p) + rest
  {
    hide Header, ParseHeader;
    var m := ParseHeader(s[..HEADER]);
    ParseRoundTrip(s[..HEADER]);
    var (p, rest) := Decode(s).value;
    assert m == MessageOf(p);
    assert s == s[..HEADER] + s[HEADER..HEADER + m.length] + s[HEADER + m.length..];
  }

  // ---- the layout of a packet ----

  /** The four bytes from `at` on are word w, the low byte first. */
  predicate WordAt(s: bytes, at: nat, w: int) {
    && at + 4 <= |s|
    && s[at] as int == w % 256 && s[at + 1] as int == w / 0x100 % 256
    && s[at + 2] as int == w / 0x1_0000 % 256 && s[at + 3] as int == w / 0x100_0000 % 256
  }

  /** Bytes s are packet p, field by field, and then `rest`. */
  predicate Layout(s: bytes, p: Packet, rest: bytes) {
    && |p.data| <= MAX_PAYLOAD
    && WordAt(s, 0, p.command) && WordAt(s, 4, p.arg0) && WordAt(s, 8, p.arg1)
    && WordAt(s, 12, |p.data|) && WordAt(s, 16, Sum(p.data)) && WordAt(s, 20, 0xffff_ffff - p.command)
    && s[24..] == p.data + rest
  }

  lemma LeAt(s: bytes, at: nat, w: word)
    requires at + 4 <= |s|
    ensures s[at..at + 4] == Le(w) <==> WordAt(s, at, w)
  {
    assert w / 0x100_0000 % 256 == w / 0x100_0000;
    var b := s[at..at + 4];
    assert b[0] == s[at] && b[1] == s[at + 1] && b[2] == s[at + 2] && b[3] == s[at + 3];
    if WordAt(s, at, w) {
      assert b == [b[0], b[1], b[2], b[3]];
    }
  }

  lemma HeaderAt(s: bytes, m: Message)
    requires HEADER <= |s|
    ensures s[..HEADER] == Header(m) <==>
              && s[0..4] == Le(m.command) && s[4..8] == Le(m.arg0) && s[8..12] == Le(m.arg1)
              && s[12..16] == Le(m.length) && s[16..20] == Le(m.check) && s[20..24] == Le(m.magic)
  {
    hide Le;
    var b, h := s[..HEADER], Header(m);
    assert b[0..4] == s[0..4] && b[4..8] == s[4..8] && b[8..12] == s[8..12];
    assert b[12..16] == s[12..16] && b[16..20] == s[16..20] && b[20..24] == s[20..24];
    assert b == b[0..4] + b[4..8] + b[8..12] + b[12..16] + b[16..20] + b[20..24];
    assert h[0..4] == Le(m.command) && h[4..8] == Le(m.arg0) && h[8..12] == Le(m.arg1);
    assert h[12..16] == Le(m.length) && h[16..20] == Le(m.check) && h[20..24] == Le(m.magic);
  }

  /** A packet is sent as these bytes and no others. */
  lemma EncodeLayout(s: bytes, p: Packet, rest: bytes)
    requires |p.data| <= MAX_PAYLOAD
    ensures s == Encode(p) + rest <==> Layout(s, p, rest)
  {
    hide Le, Header, WordAt, Magic, Sum;
    if HEADER <= |s| {
      var m := MessageOf(p);
      HeaderAt(s, m);
      LeAt(s, 0, m.command);
      LeAt(s, 4, m.arg0);
      LeAt(s, 8, m.arg1);
      LeAt(s, 12, m.length);
      LeAt(s, 16, m.check);
      LeAt(s, 20, m.magic);
      MagicIsComplement(p.command);
      Halves(s, Header(m), p.data + rest);
      assert Encode(p) + rest == Header(m) + (p.data + rest);
    } else {
      ShortLayout(s, p, rest);
    }
  }

  lemma ShortLayout(s: bytes, p: Packet, rest: bytes)
    requires |s| < HEADER
    ensures !Layout(s, p, rest)
  {
  }

  lemma Halves(s: bytes, a: bytes, b: bytes)
    requires |a| == HEADER <= |s|
    ensures s == a + b <==> s[..HEADER] == a && s[HEADER..] == b
  {
  }

  /**
   What the receiver takes for packet p followed by `rest`: exactly the bytes laid out so. In particular the last
   word of the header is the complement of the command, and any other is refused.
   */
  lemma DecodeLayout(s: bytes, p: Packet, rest: bytes)
    ensures Decode(s) == Some((p, rest)) <==> Layout(s, p, rest)
  {
    hide Decode, Encode, Layout;
    if Decode(s) == Some((p, rest)) {
      EncodeDecode(s);
      EncodeLayout(s, p, rest);
    }
    if Layout(s, p, rest) {
      LayoutFits(s, p, rest);
      EncodeLayout(s, p, rest);
      DecodeEncode(p, rest);
    }
  }

  lemma LayoutFits(s: bytes, p: Packet, rest: bytes)
    requires Layout(s, p, rest)
    ensures |p.data| <= MAX_PAYLOAD
  {
  }

  /** Changing one byte of a payload is always noticed. */
  lemma ChangedByteRejected(p: Packet, rest: bytes, i: nat, b: byte)
    requires |p.data| <= MAX_PAYLOAD && i < |p.data| && b != p.data[i]
    ensures Decode((Encode(p) + rest)[HEADER + i := b]) == None
  {
    hide Header, ParseHeader;
    var s := (Encode(p) + rest)[HEADER + i := b];
    assert s[..HEADER] == Header(MessageOf(p));
    HeaderRoundTrip(MessageOf(p));
    assert s[HEADER..HEADER + |p.data|] == p.data[i := b];
    SumUpdate(p.data, i, b);
  }

  function EncodeAll(ps: seq<Packet>): bytes
    requires forall p :: p in ps ==> |p.data| <= MAX_PAYLOAD
  {
    if ps == [] then [] else Encode(ps[0]) + EncodeAll(ps[1..])
  }

  lemma DecodeShrinks(s: bytes)
    requires Decode(s).Some?
    ensures |Decode(s).value.1| < |s|
  {
    hide ParseHeader;
  }

  /** All packets up to the first failure. */
  function DecodeAll(s: bytes): seq<Packet>
    decreases |s|
  {
    if Decode(s).None? then []
    else
      DecodeShrinks(s);
      [Decode(s).value.0] + DecodeAll(Decode(s).value.1)
  }

  lemma {:induction false} StreamRoundTrip(ps: seq<Packet>)
    requires forall p :: p in ps ==> |p.data| <= MAX_PAYLOAD
    ensures DecodeAll(EncodeAll(ps)) == ps
  {
    hide Decode, Encode;
    if ps == [] {
      NothingDecodes();
    } else {
      DecodeEncode(ps[0], EncodeAll(ps[1..]));
      StreamRoundTrip(ps[1..]);
    }
  }

  lemma NothingDecodes()
    ensures Decode([]).None?
  {
  }

  // ---- the loops ----

  /** One system call: at most n bytes, EINTR, EAGAIN, or an error. */
  datatype Io = Moved(n: nat) | Intr | Again | Fail

  ghost predicate Reliable(io: seq<Io>) {
    forall i :: 0 <= i < |io| ==> !io[i].Fail? && !io[i].Again?
  }

  ghost predicate Unfailing(io: seq<Io>) {
    forall i :: 0 <= i < |io| ==> !io[i].Fail?
  }

  /** What a system call moves: some bytes, at least one of those there are. */
  function Portion(n: nat, most: nat): (k: nat)
    ensures k <= most && (most > 0 ==> k > 0)
  {
    if n > most then most else if n == 0 && most > 0 then 1 else n
  }

  /** The receiving end: what is still to come, and the outcomes of the coming reads. */
  class Source {
    var rest: bytes
    var io: seq<Io>

    constructor (rest: bytes, io: seq<Io>)
      ensures this.rest == rest && this.io == io
    {
      this.rest, this.io := rest, io;
    }

    /** readx: short reads are put together and EINTR is retried. */
    method ReadX(len: nat) returns (ok: bool, buf: bytes)
      modifies this
      ensures ok ==> |buf| == len && old(rest) == buf + rest
      ensures Reliable(old(io)) ==> (ok <==> len <= |old(rest)|)
      ensures Reliable(old(io)) ==> Reliable(io)
    {
      buf := [];
      while |buf| < len
        invariant |buf| <= len && old(rest) == buf + rest
        invariant Reliable(old(io)) ==> Reliable(io)
        decreases len - |buf|, |io|
      {
        if io != [] && !io[0].Moved? {
          if !io[0].Intr? { return false, buf; }
          io := io[1..];
        } else {
          var most := if len - |buf| < |rest| then len - |buf| else |rest|;
          if most == 0 { return false, buf; }
          var n := if io == [] then most else Portion(io[0].n, most);
          if io != [] { io := io[1..]; }
          buf, rest := buf + rest[..n], rest[n..];
        }
      }
      return true, buf;
    }

    /** remote_read: the packet the stream starts with, whatever the reads look like. */
    method ReadPacket() returns (r: Option<Packet>)
      modifies this
      ensures r.Some? ==> Decode(old(rest)) == Some((r.value, rest)) && Layout(old(rest), r.value, rest)
      ensures Reliable(old(io)) && r.None? ==> Decode(old(rest)).None?
      ensures Reliable(old(io)) ==> Reliable(io)
    {
      var ok, head := ReadX(HEADER);
      if !ok { return None; }
      assert old(rest)[..HEADER] == head;
      var m := ParseHeader(head);
      if !HeaderOk(m) { return None; }
      ghost var body := rest;
      var got, data := ReadX(m.length);
      assert old(rest) == head + body;
      if !got { return None; }
      assert old(rest)[HEADER..HEADER + m.length] == data;
      assert old(rest)[HEADER + m.length..] == rest;
      var sum := Checksum(data);
      if sum != m.check { return None; }
      DecodeLayout(old(rest), Packet(m.command, m.arg0, m.arg1, data), rest);
      return Some(Packet(m.command, m.arg0, m.arg1, data));
    }

    /** The output thread's loop over read_from_remote. */
    method ReadAll() returns (ps: seq<Packet>)
      modifies this
      ensures Reliable(old(io)) ==> ps == DecodeAll(old(rest))
      ensures ps <= DecodeAll(old(rest))
    {
      hide Decode;
      ps := [];
      while true
        invariant Reliable(old(io)) ==> Reliable(io)
        invariant ps + DecodeAll(rest) == DecodeAll(old(rest))
        decreases |rest|
      {
        ghost var before := rest;
        var r := ReadPacket();
        if r.None? { return; }
        DecodeShrinks(before);
        ps := ps + [r.value];
      }
    }
  }

  /** The sending end. */
  class Sink {
    var out: bytes
    var io: seq<Io>

    constructor (io: seq<Io>)
      ensures out == [] && this.io == io
    {
      out, this.io := [], io;
    }

    /** writex: short writes go on, EINTR and EAGAIN are retried. */
    method WriteX(data: bytes) returns (ok: bool)
      modifies this
      ensures ok ==> out == old(out) + data
      ensures exists k :: 0 <= k <= |data| && out == old(out) + data[..k]
      ensures Unfailing(old(io)) ==> ok && Unfailing(io)
    {
      var k := 0;
      while k < |data|
        invariant k <= |data| && out == old(out) + data[..k]
        invariant Unfailing(old(io)) ==> Unfailing(io)
        decreases |data| - k, |io|
      {
        if io != [] && !io[0].Moved? {
          if io[0].Fail? { return false; }
          io := io[1..];
        } else {
          var n := if io == [] then |data| - k else Portion(io[0].n, |data| - k);
          if io != [] { io := io[1..]; }
          out := out + data[k..k + n];
          assert data[..k] + data[k..k + n] == data[..k + n];
          k := k + n;
        }
      }
      assert data[..|data|] == data;
      return true;
    }

    /** send_packet fills in the header, remote_write sends header and payload in one piece. */
    method WritePacket(p: Packet) returns (ok: bool)
      requires |p.data| <= MAX_PAYLOAD
      modifies this
      ensures ok ==> out == old(out) + Encode(p) && Layout(out[|old(out)|..], p, [])
      ensures Unfailing(old(io)) ==> ok && Unfailing(io)
    {
      var sum := Checksum(p.data);
      var m := Message(p.command, p.arg0, p.arg1, |p.data|, sum, Magic(p.command));
      ok := WriteX(Header(m) + p.data);
      assert ok ==> out[|old(out)|..] == Encode(p) + [];
      EncodeLayout(Encode(p) + [], p, []);
    }
  }
}
