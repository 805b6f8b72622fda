/**
 Requests of adb clients: a length in four hexadecimal digits and a service, put together from packets by
 a smart socket, and the host-serial form with its inverse (src/sockets.c:628-875,
 src/adb_client.c:176-208, src/commandline.c:445-458).
 */
module FrontEnd {
  import opened Octets
  import opened Lists

  // ---- hexadecimal ----

  function Digit(c: char): Option<nat> {
    if '0' <= c <= '9' then Some((c - '0') as nat)
    else if 'a' <= c <= 'f' then Some((c - 'a') as nat + 10)
    else if 'A' <= c <= 'F' then Some((c - 'A') as nat + 10)
    else None
  }

  /** The sixteen digits, in either case. */
  lemma DigitMeans(c: char, d: nat)
    requires d < 16
    ensures Digit(c) == Some(d) <==> c == "0123456789abcdef"[d] || c == "0123456789ABCDEF"[d]
    ensures Digit(c).Some? ==> Digit(c).value < 16
  {
  }

  const BAD_HEX: nat := 0xffff_ffff

  predicate IsHex(s: string) {
    forall i :: 0 <= i < |s| ==> Digit(s[i]).Some?
  }

  function HexValue(s: string): nat
    requires IsHex(s)
  {
    if s == "" then 0 else 16 * HexValue(s[..|s| - 1]) + Digit(s[|s| - 1]).value
  }

  /** unhex, on 32-bit words. */
  method Unhex(s: string) returns (n: nat)
    ensures n == if IsHex(s) then HexValue(s) % 0x1_0000_0000 else BAD_HEX
  {
    n := 0;
    hide Digit;
    for k := 0 to |s|
      invariant IsHex(s[..k]) && n == HexValue(s[..k]) % 0x1_0000_0000
    {
      var d := Digit(s[k]);
      if d.None? { return BAD_HEX; }
      MoreHex(s[..k], s[k]);
      assert s[..k + 1] == s[..k] + [s[k]];
      n := (16 * n + d.value) % 0x1_0000_0000;
    }
    assert s[..|s|] == s;
  }

  lemma MoreHex(s: string, c: char)
    requires IsHex(s) && Digit(c).Some?
    ensures IsHex(s + [c])
    ensures HexValue(s + [c]) % 0x1_0000_0000 == (16 * (HexValue(s) % 0x1_0000_0000) + Digit(c).value) % 0x1_0000_0000
  {
    hide Digit;
    assert (s + [c])[..|s|] == s;
    Wraps(HexValue(s), Digit(c).value);
  }

  lemma Wraps(v: nat, d: nat)
    ensures (16 * v + d) % 0x1_0000_0000 == (16 * (v % 0x1_0000_0000) + d) % 0x1_0000_0000
  {
  }

  function HexDigit(d: nat): char
    requires d < 16
  {
    "0123456789abcdef"[d]
  }

  /** What %04x prints for a length. */
  function Hex4(n: nat): (s: string)
    requires n < 0x1_0000
    ensures |s| == 4
  {
    [HexDigit(n / 0x1000), HexDigit(n / 0x100 % 16), HexDigit(n / 16 % 16), HexDigit(n % 16)]
  }

  lemma DigitOfHex(d: nat)
    requires d < 16
    ensures Digit(HexDigit(d)) == Some(d)
  {
  }

  lemma UnhexHex4(n: nat)
    requires n < 0x1_0000
    ensures IsHex(Hex4(n)) && HexValue(Hex4(n)) == n
  {
    hide Digit, HexDigit, HexValue;
    var a, b, c, d := n / 0x1000, n / 0x100 % 16, n / 16 % 16, n % 16;
    hide IsHex;
    NoDigits();
    NextDigit("", a);
    var x := "" + [HexDigit(a)];
    NextDigit(x, b);
    var y := x + [HexDigit(b)];
    NextDigit(y, c);
    var z := y + [HexDigit(c)];
    NextDigit(z, d);
    assert Hex4(n) == z + [HexDigit(d)];
    Recompose(n);
  }

  lemma Recompose(n: nat)
    ensures 16 * (16 * (16 * (n / 0x1000) + n / 0x100 % 16) + n / 16 % 16) + n % 16 == n
  {
    assert n / 0x1000 == n / 0x100 / 16;
    assert n / 0x100 == n / 16 / 16;
  }

  lemma NextDigit(s: string, d: nat)
    requires IsHex(s) && d < 16
    ensures IsHex(s + [HexDigit(d)]) && HexValue(s + [HexDigit(d)]) == 16 * HexValue(s) + d
  {
    assert (s + [HexDigit(d)])[..|s|] == s;
    DigitOfHex(d);
  }

  lemma NoDigits()
    ensures IsHex("") && HexValue("") == 0
  {
  }

  // ---- host-serial ----

  /** strchr from position i. */
  function Find(s: string, c: char, i: nat): (r: Option<nat>)
    ensures r.Some? ==> i <= r.value < |s| && s[r.value] == c && forall k :: i <= k < r.value ==> s[k] != c
    ensures r.None? ==> forall k :: i <= k < |s| ==> s[k] != c
    decreases |s| - i
  {
    if i >= |s| then None else if s[i] == c then Some(i) else Find(s, c, i + 1)
  }

  method StrChr(s: string, c: char, from: nat) returns (r: Option<nat>)
    requires from <= |s|
    ensures r == Find(s, c, from)
  {
    var i := from;
    while i < |s| && s[i] != c
      invariant from <= i <= |s| && Find(s, c, i) == Find(s, c, from)
    {
      i := i + 1;
    }
    return if i < |s| then Some(i) else None;
  }

  predicate IsDigit(c: char) {
    '0' <= c <= '9'
  }

  lemma DecimalDigit(c: char)
    ensures IsDigit(c) <==> Digit(c).Some? && Digit(c).value < 10
  {
  }

  /** Only digits from i up to e. */
  predicate Digits(s: string, i: nat, e: nat)
    requires e <= |s|
  {
    forall k :: i <= k < e ==> IsDigit(s[k])
  }

  /** The first place from i on that holds no digit. */
  function DigitsEnd(s: string, i: nat): (e: nat)
    requires i <= |s|
    ensures i <= e <= |s| && Digits(s, i, e) && (e < |s| ==> !IsDigit(s[e]))
    decreases |s| - i
  {
    if i == |s| || !IsDigit(s[i]) then i else DigitsEnd(s, i + 1)
  }

  /** The qualifier prefix a request starts with, the first that matches. */
  function QualifierOf(s: string): (r: Option<string>)
    ensures r.Some? ==> r.value <= s
  {
    if "usb:" <= s then Some("usb:")
    else if "product:" <= s then Some("product:")
    else if "model:" <= s then Some("model:")
    else if "device:" <= s then Some("device:")
    else None
  }

  /** Where the serial of a request ends: skip_host_serial as a function. */
  function SerialEnd(s: string): (r: Option<nat>)
  {
    if QualifierOf(s).Some? then Find(s, ':', |QualifierOf(s).value|)
    else
      match Find(s, ':', 0)
      case None => None
      case Some(first) =>
        var e := DigitsEnd(s, first + 1);
        Some(if e > first + 1 && e < |s| && s[e] == ':' then e else first)
  }

  /** The walk over the table of prefixes. */
  method FindQualifier(s: string) returns (r: Option<string>)
    ensures r == QualifierOf(s) && (r.Some? ==> r.value <= s)
  {
    var prefixes := ["usb:", "product:", "model:", "device:"];
    for i := 0 to |prefixes|
      invariant forall k :: 0 <= k < i ==> !(prefixes[k] <= s)
    {
      assert (i > 0 ==> !(prefixes[0] <= s)) && (i > 1 ==> !(prefixes[1] <= s)) && (i > 2 ==> !(prefixes[2] <= s));
      if prefixes[i] <= s { return Some(prefixes[i]); }
    }
    assert !(prefixes[0] <= s) && !(prefixes[1] <= s) && !(prefixes[2] <= s) && !(prefixes[3] <= s);
    return None;
  }

  method SkipHostSerial(s: string) returns (r: Option<nat>)
    ensures r == SerialEnd(s)
  {
    var qualifier := FindQualifier(s);
    hide QualifierOf;
    if qualifier.Some? {
      r := StrChr(s, ':', |qualifier.value|);
      return;
    }
    var first := StrChr(s, ':', 0);
    if first.None? { return None; }
    var end := first.value;
    if end + 1 < |s| && IsDigit(s[end + 1]) {
      end := end + 1;
      while end < |s| && IsDigit(s[end])
        invariant first.value + 1 <= end <= |s|
        invariant DigitsEnd(s, end) == DigitsEnd(s, first.value + 1)
      {
        end := end + 1;
      }
      if end == |s| || s[end] != ':' { end := first.value; }
    }
    return Some(end);
  }

  /**
   The serials and commands that the printed form keeps apart: a qualifier prefix with colon-free text,
   host:digits, or colon-free text that is no bare qualifier word, with a command that does not
   itself start like digits and a colon.
   */
  predicate Splittable(serial: string, command: string) {
    if QualifierOf(serial).Some? then Find(serial, ':', |QualifierOf(serial).value|).None?
    else if serial in {"usb", "product", "model", "device"} then false
    else match Find(serial, ':', 0)
      case None => !(DigitsEnd(command, 0) > 0 && DigitsEnd(command, 0) < |command|
            && command[DigitsEnd(command, 0)] == ':')
      case Some(first) => first + 1 < |serial| && Digits(serial, first + 1, |serial|)
  }

  lemma QualifierOfPrinted(serial: string, command: string)
    ensures QualifierOf(serial).Some? ==> QualifierOf(serial + ":" + command) == QualifierOf(serial)
    ensures QualifierOf(serial).None? ==>
              QualifierOf(serial + ":" + command) ==
              if serial in {"usb", "product", "model", "device"} then Some(serial + ":") else None
  {
    var s := serial + ":" + command;
    PrefixOfPrinted(serial, command, "usb");
    PrefixOfPrinted(serial, command, "product");
    PrefixOfPrinted(serial, command, "model");
    PrefixOfPrinted(serial, command, "device");
    assert "usb" + ":" == "usb:" && "product" + ":" == "product:";
    assert "model" + ":" == "model:" && "device" + ":" == "device:";
    assert "usb:"[0] == 'u' && "product:"[0] == 'p' && "model:"[0] == 'm' && "device:"[0] == 'd';
  }

  /** A word and its colon start a printed request if the serial starts so, or is the bare word. */
  lemma PrefixOfPrinted(serial: string, command: string, word: string)
    requires ':' !in word
    ensures word + ":" <= serial + ":" + command <==> word + ":" <= serial || serial == word
  {
    var s := serial + ":" + command;
    var p := word + ":";
    if p <= s {
      if |serial| < |p| {
        assert serial == s[..|serial|] == p[..|serial|];
        assert s[|serial|] == ':' == p[|serial|];
        assert forall k :: 0 <= k < |word| ==> p[k] == word[k] && p[k] != ':';
        assert p[..|word|] == word;
      } else {
        assert serial[..|p|] == s[..|p|];
      }
    }
  }

  lemma FindAppend(a: string, b: string, c: char, i: nat)
    requires i <= |a|
    ensures Find(a + b, c, i) == if Find(a, c, i).Some? then Find(a, c, i) else Find(a + b, c, |a|)
    decreases |a| - i
  {
    if i < |a| && a[i] != c {
      FindAppend(a, b, c, i + 1);
    }
  }

  lemma {:induction false} DigitsEndShift(a: string, b: string, i: nat)
    requires i <= |b|
    ensures DigitsEnd(a + b, |a| + i) == |a| + DigitsEnd(b, i)
    decreases |b| - i
  {
    if i < |b| && IsDigit(b[i]) {
      DigitsEndShift(a, b, i + 1);
    }
  }

  lemma {:induction false} DigitsEndIs(s: string, i: nat, e: nat)
    requires i <= e <= |s| && Digits(s, i, e) && (e < |s| ==> !IsDigit(s[e]))
    ensures DigitsEnd(s, i) == e
    decreases e - i
  {
    if i < e {
      DigitsEndIs(s, i + 1, e);
    }
  }

  /** skip_host_serial splits a printed request back exactly when serial and command can be kept apart. */
  lemma HostSerialRoundTrip(serial: string, command: string)
    ensures SerialEnd(serial + ":" + command) == Some(|serial|) <==> Splittable(serial, command)
  {
    hide QualifierOf, DigitsEnd;
    var s := serial + ":" + command;
    assert s == serial + (":" + command) && s[|serial|] == ':';
    QualifierOfPrinted(serial, command);
    if QualifierOf(serial).Some? {
      FindAppend(serial, ":" + command, ':', |QualifierOf(serial).value|);
    } else if serial !in {"usb", "product", "model", "device"} {
      FindAppend(serial, ":" + command, ':', 0);
      assert s == (serial + ":") + command;
      DigitsEndShift(serial + ":", command, 0);
      if Find(serial, ':', 0).Some? {
        SplitInside(serial, command, Find(serial, ':', 0).value);
      }
    }
  }

  /** Digits up to n are digits of the first n characters. */
  lemma StartDigits(s: string, n: nat, i: nat)
    requires i <= n <= |s|
    ensures Digits(s[..n], i, n) <==> Digits(s, i, n)
  {
  }

  lemma ColonEnds(s: string, i: nat, n: nat)
    requires i <= n < |s| && s[n] == ':'
    ensures DigitsEnd(s, i) == n <==> Digits(s, i, n)
  {
    if Digits(s, i, n) {
      DigitsEndIs(s, i, n);
    }
    hide Digits, DigitsEnd;
  }

  lemma Printed(serial: string, command: string)
    ensures var s := serial + ":" + command; |serial| < |s| && s[..|serial|] == serial && s[|serial|] == ':'
  {
  }

  /** A serial with a colon of its own is kept whole exactly when digits follow that colon to its end. */
  lemma SplitInside(serial: string, command: string, first: nat)
    requires first < |serial|
    ensures var s := serial + ":" + command;
            && first + 1 <= |s|
            && (DigitsEnd(s, first + 1) == |serial| <==> Digits(serial, first + 1, |serial|))
  {
    hide DigitsEnd, Digits, IsDigit;
    Printed(serial, command);
    var s := serial + ":" + command;
    StartDigits(s, |serial|, first + 1);
    ColonEnds(s, first + 1, |serial|);
  }

  // ---- requests ----

  datatype Kind = Usb | Local | Any

  /** What a request asks for: a host service, with its selector, or a service of the device. */
  datatype Request = Host(kind: Kind, serial: Option<string>, service: string) | Remote(service: string)

  /** format_host_command. */
  function Print(command: string, kind: Kind, serial: Option<string>): string {
    if serial.Some? then "host-serial:" + serial.value + ":" + command
    else (match kind case Usb => "host-usb" case Local => "host-local" case Any => "host") + ":" + command
  }

  /** How smart_socket_enqueue takes a service apart. */
  function Parse(s: string): Request {
    if "host-serial:" <= s then
      var rest := s[12..];
      match SerialEnd(rest)
      case None => Host(Any, None, rest)
      case Some(e) =>
        SerialEndInside(rest);
        Host(Any, Some(rest[..e]), rest[e + 1..])
    else if "host-usb:" <= s then Host(Usb, None, s[9..])
    else if "host-local:" <= s then Host(Local, None, s[11..])
    else if "host:" <= s then Host(Any, None, s[5..])
    else Remote(s)
  }

  lemma SerialEndInside(s: string)
    ensures SerialEnd(s).Some? ==> SerialEnd(s).value < |s| && s[SerialEnd(s).value] == ':'
  {
    hide QualifierOf;
  }

  lemma PrintSerial(command: string, serial: string)
    ensures var s := Print(command, Any, Some(serial));
            "host-serial:" <= s && s[12..] == serial + ":" + command
  {
    var s := Print(command, Any, Some(serial));
    assert s == "host-serial:" + (serial + ":" + command);
  }

  /** A printed request is parsed back exactly when its serial and command can be kept apart. */
  lemma PrintParse(command: string, serial: string)
    ensures Parse(Print(command, Any, Some(serial))) == Host(Any, Some(serial), command) <==>
          Splittable(serial, command)
  {
    hide SerialEnd, Splittable;
    var text := serial + ":" + command;
    PrintSerial(command, serial);
    HostSerialRoundTrip(serial, command);
    SerialEndInside(text);
    assert text[..|serial|] == serial && text[|serial| + 1..] == command;
    if SerialEnd(text).Some? && SerialEnd(text).value != |serial| {
      assert |text[..SerialEnd(text).value]| != |serial|;
    }
  }

  lemma PrintParseKind(command: string, kind: Kind)
    ensures Parse(Print(command, kind, None)) == Host(kind, None, command)
  {
    hide SerialEnd;
    var s := Print(command, kind, None);
    match kind
    case Usb => assert s == "host-usb:" + command && s[5] == 'u';
    case Local => assert s == "host-local:" + command && s[5] == 'l';
    case Any => assert s == "host:" + command && s[4] == ':' && "host-serial:"[4] == '-'
          && "host-usb:"[4] == '-' && "host-local:"[4] == '-';
  }

  /** Without a colon there is no serial, and what starts with none of the four words is for the device. */
  lemma ParseOther(s: string)
    ensures ':' !in s ==> Parse("host-serial:" + s) == Host(Any, None, s)
    ensures Parse(s) == Remote(s) <==>
              !("host-serial:" <= s) && !("host-usb:" <= s) && !("host-local:" <= s) && !("host:" <= s)
  {
    hide DigitsEnd;
    assert ("host-serial:" + s)[12..] == s;
  }

  // ---- reassembly ----

  datatype Verdict = Waiting | Bad | Dispatch(service: string)

  /** What all the bytes so far amount to. */
  function Judge(all: string): Verdict {
    if |all| < 4 then Waiting
    else if !IsHex(all[..4]) || HexValue(all[..4]) < 1 || HexValue(all[..4]) > 1024 then Bad
    else if HexValue(all[..4]) + 4 > |all| then Waiting
    else Dispatch(all[4..HexValue(all[..4]) + 4])
  }

  function Framed(service: string): string
    requires |service| < 0x1_0000
  {
    Hex4(|service|) + service
  }

  /** Every proper start of a request waits, and the whole of it dispatches its service. */
  lemma JudgeRequest(service: string, k: nat)
    requires 1 <= |service| <= 1024 && k <= |service| + 4
    ensures Judge(Framed(service)[..k]) == if k < |service| + 4 then Waiting else Dispatch(service)
  {
    hide HexValue, Hex4, IsHex;
    UnhexHex4(|service|);
    StartOf(Hex4(|service|), service, k);
  }

  lemma StartOf(length: string, service: string, k: nat)
    requires |length| == 4 && k <= |service| + 4
    ensures k >= 4 ==> (length + service)[..k][..4] == length
    ensures k == |service| + 4 ==> (length + service)[..k][4..k] == service
  {
    var text := (length + service)[..k];
    if k >= 4 {
      assert text[..4] == length;
    }
    if k == |service| + 4 {
      assert text == length + service && text[4..k] == service;
    }
  }

  /** Whatever is dispatched was framed with its own length, of 1 to 1024. */
  lemma DispatchedWasFramed(all: string)
    requires Judge(all).Dispatch?
    ensures var s := Judge(all).service;
            && 1 <= |s| <= 1024 && |s| + 4 <= |all| && all[4..|s| + 4] == s
            && IsHex(all[..4]) && HexValue(all[..4]) == |s|
  {
    hide HexValue, Digit;
  }

  /** What is refused could never become a request: its length is no number from 1 to 1024. */
  lemma RefusedForGood(all: string, more: string)
    requires Judge(all).Bad?
    ensures Judge(all + more).Bad?
  {
    hide HexValue, Digit, IsHex;
    assert |all| >= 4 && (all + more)[..4] == all[..4];
  }

  /** It is refused as soon as its length is there, and exactly when nothing that may follow makes it a request. */
  lemma RefusedIffHopeless(all: string)
    ensures |all| < 4 ==> Judge(all) == Waiting
    ensures |all| >= 4 ==> (Judge(all).Bad? <==> forall more :: !Judge(all + more).Dispatch?)
  {
    if |all| >= 4 {
      if Judge(all).Bad? {
        forall more ensures !Judge(all + more).Dispatch? {
          RefusedForGood(all, more);
        }
      } else {
        Completed(all);
      }
    }
  }

  lemma Completed(all: string)
    requires |all| >= 4 && !Judge(all).Bad?
    ensures exists more :: Judge(all + more).Dispatch?
  {
    hide HexValue, IsHex;
    var more := seq(HexValue(all[..4]), i => 'x');
    assert (all + more)[..4] == all[..4];
    assert Judge(all + more).Dispatch?;
  }

  /** The length is decoded as soon as it is there. */
  method Examine(all: string) returns (v: Verdict)
    ensures v == Judge(all)
  {
    hide Digit, HexValue;
    if |all| < 4 { return Waiting; }
    var len := Unhex(all[..4]);
    SmallHex(all[..4]);
    if len < 1 || len > 1024 { return Bad; }
    if len + 4 > |all| { return Waiting; }
    return Dispatch(all[4..len + 4]);
  }

  /** A smart socket: `held` is its first packet, `open` is false once it has closed. */
  class SmartSocket {
    var held: Option<string>
    var open: bool

    constructor ()
      ensures held == None && open
    {
      held, open := None, true;
    }

    function Bytes(): string
      reads this
    {
      if held.Some? then held.value else ""
    }

    /**
     smart_socket_enqueue up to the dispatch: packets are joined in the first one, which must hold
     them; too much, or a bad length, closes the socket.
     */
    method Enqueue(piece: string) returns (v: Verdict)
      requires open
      modifies this
      ensures old(held).Some? && |old(held).value| + |piece| > MAX_PAYLOAD ==> v == Bad
      ensures !(old(held).Some? && |old(held).value| + |piece| > MAX_PAYLOAD) ==>
                held == Some(old(Bytes()) + piece) && v == Judge(old(Bytes()) + piece)
      ensures open == !v.Bad?
    {
      if held.None? {
        held := Some(piece);
      } else {
        if |held.value| + |piece| > MAX_PAYLOAD {
          open := false;
          return Bad;
        }
        held := Some(held.value + piece);
      }
      assert held.value == old(Bytes()) + piece;
      v := Examine(held.value);
      if v.Bad? { open := false; }
    }

    /** What follows a dispatch: a transport switch empties the first packet, everything else closes. */
    method Dispatched(service: string, handled: bool) returns (r: Request)
      requires open && held.Some?
      modifies this
      ensures r == Parse(service)
      ensures open <==> r.Host? && !handled && "transport" <= r.service
      ensures open ==> held == Some("")
    {
      r := Parse(service);
      if r.Host? && !handled && "transport" <= r.service {
        held := Some("");
      } else {
        open := false;
      }
    }

    /**
     However a request is cut into packets, on a new socket or after a transport switch: every packet
     but the last waits, and the last one dispatches the service.
     */
    method Feed(service: string, pieces: seq<string>) returns (verdicts: seq<Verdict>)
      requires open && Bytes() == "" && 1 <= |service| <= 1024
      requires Joined(pieces) == Framed(service) && forall p :: p in pieces ==> p != ""
      modifies this
      ensures |verdicts| == |pieces| > 0 && open && held.Some?
      ensures forall i :: 0 <= i < |pieces| - 1 ==> verdicts[i] == Waiting
      ensures verdicts[|pieces| - 1] == Dispatch(service)
    {
      hide Judge, Joined, Framed;
      FeedStart(service, pieces);
      verdicts := [];
      for i := 0 to |pieces|
        invariant open && |verdicts| == i && (i > 0 ==> held.Some?)
        invariant Bytes() + Joined(pieces[i..]) == Framed(service)
        invariant forall j :: 0 <= j < i ==> verdicts[j] == if j < |pieces| - 1 then Waiting else Dispatch(service)
      {
        FeedStep(service, Bytes(), pieces, i);
        var v := Enqueue(pieces[i]);
        verdicts := verdicts + [v];
      }
    }
  }

  lemma FeedStart(service: string, pieces: seq<string>)
    requires |service| < 0x1_0000 && Joined(pieces) == Framed(service)
    ensures pieces != [] && "" + Joined(pieces[0..]) == Framed(service)
  {
    assert pieces[0..] == pieces;
    assert "" + Joined(pieces) == Joined(pieces);
  }

  /** One more packet: what is there is a longer start of the request. */
  lemma FeedStep(service: string, start: string, pieces: seq<string>, i: nat)
    requires 1 <= |service| <= 1024 && i < |pieces| && (forall p :: p in pieces ==> p != "")
    requires start + Joined(pieces[i..]) == Framed(service)
    ensures Judge(start + pieces[i]) == if i < |pieces| - 1 then Waiting else Dispatch(service)
    ensures |start + pieces[i]| <= 1028 && (start + pieces[i]) + Joined(pieces[i + 1..]) == Framed(service)
  {
    hide Judge, Joined, Framed;
    JoinedStep(pieces, i);
    assert start + (pieces[i] + Joined(pieces[i + 1..])) == (start + pieces[i]) + Joined(pieces[i + 1..]);
    JudgeStart(service, start + pieces[i], Joined(pieces[i + 1..]));
  }

  lemma JoinedStep(pieces: seq<string>, i: nat)
    requires i < |pieces| && forall p :: p in pieces ==> p != ""
    ensures Joined(pieces[i..]) == pieces[i] + Joined(pieces[i + 1..])
    ensures Joined(pieces[i + 1..]) == "" <==> i + 1 == |pieces|
  {
    assert pieces[i..][0] == pieces[i] && pieces[i..][1..] == pieces[i + 1..];
    if i + 1 < |pieces| {
      assert pieces[i + 1] in pieces;
    }
  }

  lemma JudgeStart(service: string, start: string, rest: string)
    requires 1 <= |service| <= 1024 && start + rest == Framed(service)
    ensures Judge(start) == if rest != "" then Waiting else Dispatch(service)
    ensures |start| <= 1028
  {
    hide Judge;
    JudgeRequest(service, |start|);
    assert Framed(service)[..|start|] == start;
  }

  /** Four digits never wrap. */
  lemma SmallHex(s: string)
    requires |s| == 4
    ensures IsHex(s) ==> HexValue(s) < 0x1_0000
  {
    if IsHex(s) {
      HexBound(s[..1], s[0]);
      HexBound(s[..2], s[1]);
      HexBound(s[..3], s[2]);
      HexBound(s, s[3]);
      assert s[..3][..2] == s[..2] && s[..2][..1] == s[..1] && s[..1][..0] == "";
    }
    hide Digit;
  }

  lemma HexBound(s: string, c: char)
    requires s != "" && IsHex(s) && s[|s| - 1] == c
    ensures HexValue(s) <= 16 * HexValue(s[..|s| - 1]) + 15
  {
  }
}
