/**
 The listing of forwards: what list-forward prints, the two passes that print it into a buffer of its size, and what
 a reader makes of it (src/adb.c:812-857).
 */
module Listing {
  import opened Lists
  import opened Graph
  import opened Forwards
  import FrontEnd

  function SerialOf(l: Listener, serials: map<Ref, string>): string {
    if l.transport.Some? && l.transport.value in serials then serials[l.transport.value] else ""
  }

  /** One line of a listing: serial, local name, target. */
  function Line(l: Listener, serials: map<Ref, string>): (line: string)
    ensures line != ""
  {
    SerialOf(l, serials) + " " + l.localName + " " + l.connectTo + "\n"
  }

  function Lines(ls: seq<Listener>, serials: map<Ref, string>): string {
    if ls == [] then ""
    else
      var n := |ls| - 1;
      Lines(ls[..n], serials) + (if Smart(ls[n]) then "" else Line(ls[n], serials))
  }

  lemma {:induction false} LinesGrow(ls: seq<Listener>, i: nat, serials: map<Ref, string>)
    requires i <= |ls|
    ensures Lines(ls[..i], serials) <= Lines(ls, serials)
    decreases |ls| - i
  {
    hide Line, Smart;
    if i < |ls| {
      LinesGrow(ls, i + 1, serials);
      assert ls[..i + 1][..i] == ls[..i];
    } else {
      assert ls[..i] == ls;
    }
  }

  lemma LinesStep(ls: seq<Listener>, i: nat, serials: map<Ref, string>)
    requires i < |ls|
    ensures var before := Lines(ls[..i], serials);
            Lines(ls[..i + 1], serials) == if Smart(ls[i]) then before else before + Line(ls[i], serials)
  {
    hide Smart, Line;
    assert ls[..i + 1][..i] == ls[..i];
    assert Lines(ls[..i], serials) + "" == Lines(ls[..i], serials);
  }

  function Min(a: nat, b: nat): nat { if a < b then a else b }

  /** snprintf: as much of the text as there is room for, and its end. */
  method Snprintf(buf: array<char>, at: nat, text: string)
    requires at <= buf.Length
    modifies buf
    ensures buf[..at] == old(buf[..at])
    ensures at < buf.Length ==>
              var m := Min(|text|, buf.Length - at - 1);
              buf[..at + m] == old(buf[..at]) + text[..m] && buf[at + m] == '\0'
  {
    if at == buf.Length { return; }
    var m := Min(|text|, buf.Length - at - 1);
    for k := 0 to m
      invariant buf[..at] == old(buf[..at]) && buf[at..at + k] == text[..k]
    {
      buf[at + k] := text[k];
      assert buf[at..at + k + 1] == buf[at..at + k] + [text[k]];
    }
    buf[at + m] := '\0';
    assert buf[..at + m] == buf[..at] + buf[at..at + m];
  }

  /** The buffer is full at the end of a line: there the walk stops. */
  ghost predicate FullAtLine(ls: seq<Listener>, room: nat, serials: map<Ref, string>) {
    room > 0 && exists i :: 0 <= i <= |ls| && |Lines(ls[..i], serials)| == room
  }

  /**
   The buffer is large enough, up to the last line: a line that does not fit has no line behind it.
   Otherwise the next line would be put behind the end of the buffer.
   */
  ghost predicate Room(ls: seq<Listener>, room: nat, serials: map<Ref, string>) {
    || FullAtLine(ls, room, serials)
    || forall j :: 0 <= j < |ls| && |Lines(ls[..j], serials)| > room ==> Smart(ls[j])
  }

  /** The buffer holds the text, cut short if it must be. */
  ghost predicate Holds(buf: array<char>, text: string)
    reads buf
  {
    buf.Length > 0 ==>
      var m := Min(|text|, buf.Length - 1); buf[..m] == text[..m] && (text != "" ==> buf[m] == '\0')
  }

  method PrintLine(buf: array<char>, at: nat, line: string, ghost text: string)
    requires at == |text| <= buf.Length && Holds(buf, text) && line != ""
    modifies buf
    ensures Holds(buf, text + line)
  {
    Snprintf(buf, at, line);
  }

  lemma HoldsMore(buf: array<char>, text: string, more: string)
    requires text <= more && |text| == buf.Length && Holds(buf, text)
    ensures Holds(buf, more)
  {
  }

  lemma HoldsNothing(buf: array<char>)
    ensures Holds(buf, "")
  {
  }

  /**
   format_listeners: without a buffer it only adds up, with one it also prints. The walk leaves smart
   sockets out. The size it returns is that of the whole listing, unless the buffer was full at the
   end of a line.
   */
  method FormatListeners(ls: seq<Listener>, buf: array?<char>, serials: map<Ref, string>) returns (result: nat)
    requires buf != null ==> Room(ls, buf.Length, serials)
    modifies if buf == null then {} else {buf}
    ensures result == if buf != null && FullAtLine(ls, buf.Length, serials) then buf.Length else |Lines(ls, serials)|
    ensures buf != null ==> Holds(buf, Lines(ls, serials))
  {
    hide Smart, Line, Lines, FullAtLine, Holds, Room;
    result := 0;
    if buf != null { HoldsNothing(buf); }
    NoLines(ls, serials);
    for i := 0 to |ls|
      invariant result == |Lines(ls[..i], serials)| && (buf != null ==> Holds(buf, Lines(ls[..i], serials)))
      invariant buf != null ==> NotFullBefore(ls, i, buf.Length, serials)
    {
      LinesStep(ls, i, serials);
      if !Smart(ls[i]) {
        var line := Line(ls[i], serials);
        if buf != null {
          StillRoom(ls, i, buf.Length, serials);
          PrintLine(buf, result, line, Lines(ls[..i], serials));
        }
        result := result + |line|;
        if buf != null && result == buf.Length {
          LinesGrow(ls, i + 1, serials);
          HoldsMore(buf, Lines(ls[..i + 1], serials), Lines(ls, serials));
          FullHere(ls, i + 1, buf.Length, serials);
          return;
        }
      }
    }
    assert ls[..|ls|] == ls;
    if buf != null {
      NeverFull(ls, buf.Length, serials);
    }
  }

  /** No line up to the i-th ended at the end of the buffer. */
  ghost predicate NotFullBefore(ls: seq<Listener>, i: nat, room: nat, serials: map<Ref, string>)
    requires i <= |ls|
  {
    room > 0 ==> forall j :: 0 <= j <= i ==> |Lines(ls[..j], serials)| != room
  }

  lemma FullHere(ls: seq<Listener>, i: nat, room: nat, serials: map<Ref, string>)
    requires i <= |ls| && |Lines(ls[..i], serials)| == room > 0
    ensures FullAtLine(ls, room, serials)
  {
  }

  lemma NeverFull(ls: seq<Listener>, room: nat, serials: map<Ref, string>)
    requires NotFullBefore(ls, |ls|, room, serials)
    ensures !FullAtLine(ls, room, serials)
  {
    hide Lines;
  }

  /** There is room where the next line goes. */
  lemma StillRoom(ls: seq<Listener>, i: nat, room: nat, serials: map<Ref, string>)
    requires i < |ls| && !Smart(ls[i]) && Room(ls, room, serials) && NotFullBefore(ls, i, room, serials)
    ensures |Lines(ls[..i], serials)| <= room
  {
    hide Smart, Lines;
    NoLines(ls, serials);
    if |Lines(ls[..i], serials)| > room {
      forall j | i <= j <= |ls| ensures |Lines(ls[..j], serials)| > room {
        LinesGrow(ls[..j], i, serials);
        assert ls[..j][..i] == ls[..i];
      }
    }
  }

  /** The size pass tells how much room is needed. */
  lemma SizeSuffices(ls: seq<Listener>, room: nat, serials: map<Ref, string>)
    requires |Lines(ls, serials)| < room
    ensures Room(ls, room, serials) && !FullAtLine(ls, room, serials)
  {
    hide Smart, Lines;
    forall j | 0 <= j <= |ls| ensures |Lines(ls[..j], serials)| < room {
      LinesGrow(ls, j, serials);
    }
  }

  lemma NoLines(ls: seq<Listener>, serials: map<Ref, string>)
    ensures Lines(ls[..0], serials) == ""
  {
  }

  // ---- reading a listing back ----

  /** A forward as a listing tells it. */
  datatype Row = Row(serial: string, local: string, remote: string)

  /** A line, without its end: two words and the rest. */
  function ReadLine(line: string): Row {
    match FrontEnd.Find(line, ' ', 0)
    case None => Row(line, "", "")
    case Some(i) =>
      match FrontEnd.Find(line, ' ', i + 1)
      case None => Row(line[..i], line[i + 1..], "")
      case Some(j) => Row(line[..i], line[i + 1..j], line[j + 1..])
  }

  function ReadListing(text: string): seq<Row>
    decreases |text|
  {
    match FrontEnd.Find(text, '\n', 0)
    case None => []
    case Some(i) => [ReadLine(text[..i])] + ReadListing(text[i + 1..])
  }

  /** The forwards, in the order of the list; smart sockets are none. */
  function Rows(ls: seq<Listener>, serials: map<Ref, string>): seq<Row> {
    if ls == [] then []
    else
      var n := |ls| - 1;
      var l := ls[n];
      Rows(ls[..n], serials) + (if Smart(l) then [] else [Row(SerialOf(l, serials), l.localName, l.connectTo)])
  }

  /** The words of a line can be told apart. */
  predicate Tidy(l: Listener, serials: map<Ref, string>) {
    && ' ' !in SerialOf(l, serials) && ' ' !in l.localName
    && '\n' !in SerialOf(l, serials) && '\n' !in l.localName && '\n' !in l.connectTo
  }

  lemma FindAt(a: string, c: char, b: string, from: nat)
    requires from <= |a| && forall k :: from <= k < |a| ==> a[k] != c
    ensures FrontEnd.Find(a + [c] + b, c, from) == Some(|a|)
  {
    var s := a + [c] + b;
    assert s[|a|] == c && forall k :: from <= k < |a| ==> s[k] == a[k];
    hide FrontEnd.Find;
  }

  lemma WordsRead(serial: string, local: string, remote: string)
    requires ' ' !in serial && ' ' !in local
    ensures ReadLine(serial + " " + local + " " + remote) == Row(serial, local, remote)
  {
    hide FrontEnd.Find;
    var line := serial + " " + local + " " + remote;
    assert line == serial + " " + (local + " " + remote) && line == (serial + " " + local) + " " + remote;
    FindAt(serial, ' ', local + " " + remote, 0);
    FindAt(serial + " " + local, ' ', remote, |serial| + 1);
  }

  lemma LineRead(l: Listener, serials: map<Ref, string>)
    requires Tidy(l, serials)
    ensures ReadListing(Line(l, serials)) == [Row(SerialOf(l, serials), l.localName, l.connectTo)]
  {
    hide FrontEnd.Find, ReadLine, SerialOf;
    var body := SerialOf(l, serials) + " " + l.localName + " " + l.connectTo;
    assert Line(l, serials) == body + "\n" + "";
    FindAt(body, '\n', "", 0);
    assert (body + "\n")[..|body|] == body;
    WordsRead(SerialOf(l, serials), l.localName, l.connectTo);
    NothingRead((body + "\n")[|body| + 1..]);
  }

  lemma NothingRead(text: string)
    requires text == ""
    ensures ReadListing(text) == []
  {
  }

  lemma ReadFirst(text: string, i: nat)
    requires FrontEnd.Find(text, '\n', 0) == Some(i)
    ensures i < |text| && ReadListing(text) == [ReadLine(text[..i])] + ReadListing(text[i + 1..])
  {
    hide ReadLine;
  }

  /** Text that ends with a line is read on its own. */
  lemma {:induction false} ReadOn(a: string, b: string)
    requires a == "" || a[|a| - 1] == '\n'
    ensures ReadListing(a + b) == ReadListing(a) + ReadListing(b)
    decreases |a|
  {
    hide ReadLine, ReadListing, FrontEnd.Find;
    if a == "" {
      NothingRead(a);
      assert a + b == b;
    } else {
      FrontEnd.FindAppend(a, b, '\n', 0);
      var i := FrontEnd.Find(a, '\n', 0).value;
      ReadFirst(a, i);
      ReadFirst(a + b, i);
      assert (a + b)[..i] == a[..i] && (a + b)[i + 1..] == a[i + 1..] + b;
      ReadOn(a[i + 1..], b);
    }
  }

  lemma {:induction false} LinesEnd(ls: seq<Listener>, serials: map<Ref, string>)
    ensures var text := Lines(ls, serials); text == "" || text[|text| - 1] == '\n'
  {
    hide SerialOf;
    if ls != [] {
      LinesEnd(ls[..|ls| - 1], serials);
    }
  }

  /** What list-forward prints tells every forward, in order: its device, its local name and its target. */
  lemma {:induction false} ListingReadsBack(ls: seq<Listener>, serials: map<Ref, string>)
    requires forall l :: l in ls && !Smart(l) ==> Tidy(l, serials)
    ensures ReadListing(Lines(ls, serials)) == Rows(ls, serials)
  {
    hide Line, ReadListing, Smart, Tidy;
    if ls == [] {
      NothingRead("");
    } else {
      var n := |ls| - 1;
      ListingReadsBack(ls[..n], serials);
      LinesEnd(ls[..n], serials);
      if !Smart(ls[n]) {
        LineRead(ls[n], serials);
        ReadOn(Lines(ls[..n], serials), Line(ls[n], serials));
      } else {
        assert Lines(ls[..n], serials) + "" == Lines(ls[..n], serials);
      }
    }
  }
}
