/**
 Choosing a device: qual_match and one pass of acquire_one_transport (src/transport.c:754-892), against
 what the long listing prints (src/transport.c:910-959).
 */
module Acquire {
  import opened Lists
  import Graph

  datatype Kind = Usb | Local | Any | HostOnly

  /** A transport as far as selection goes; strings may be missing. */
  datatype Device = Device(serial: Option<string>, devpath: Option<string>, product: Option<string>,
                           model: Option<string>, device: Option<string>, kind: Kind, state: Graph.ConnState)

  datatype Trouble = NotFound | NoPermission | MoreThanOne(kind: Kind) | DeviceUnauthorized | DeviceOffline | WrongState

  // ---- qualifiers ----

  predicate Plain(c: char) {
    'A' <= c <= 'Z' || 'a' <= c <= 'z' || '0' <= c <= '9'
  }

  /** In ASCII. */
  lemma PlainCodes(c: char)
    ensures Plain(c) <==> 48 <= c as int <= 57 || 65 <= c as int <= 90 || 97 <= c as int <= 122
  {
  }

  function Clean(c: char, sanitize: bool): char {
    if sanitize && !Plain(c) then '_' else c
  }

  function Sanitized(s: string, sanitize: bool): (r: string)
    ensures |r| == |s| && forall i :: 0 <= i < |s| ==> r[i] == Clean(s[i], sanitize)
  {
    seq(|s|, i requires 0 <= i < |s| => Clean(s[i], sanitize))
  }

  /** add_qual: the field a long listing shows for a qualifier, behind a space. */
  function Listed(prefix: string, qual: Option<string>, sanitize: bool): string {
    if qual.None? || qual.value == "" then "" else " " + prefix + Sanitized(qual.value, sanitize)
  }

  /** A selector names a qualifier. */
  predicate Names(selector: string, prefix: string, qual: Option<string>, sanitize: bool) {
    if selector == "" then qual.None? || qual.value == ""
    else qual.Some? && selector == prefix + Sanitized(qual.value, sanitize)
  }

  /** qual_match walks both strings character by character. */
  method QualMatch(selector: string, prefix: string, qual: Option<string>, sanitize: bool) returns (r: bool)
    ensures r == Names(selector, prefix, qual, sanitize)
    ensures selector == "" ==> (r <==> qual.None? || qual.value == "")
    ensures selector != "" ==> (r <==> qual.Some? && selector == prefix + Sanitized(qual.value, sanitize))
  {
    if selector == "" { return qual.None? || qual.value == ""; }
    if qual.None? { return false; }
    ghost var want := prefix + Sanitized(qual.value, sanitize);
    var at, p := 0, 0;
    while p < |prefix|
      invariant p == at <= |prefix| && at <= |selector| && selector[..at] == want[..at]
    {
      if at == |selector| || prefix[p] != selector[at] {
        assert |selector| != at ==> want[at] != selector[at];
        return false;
      }
      assert want[at] == prefix[at];
      p, at := p + 1, at + 1;
    }
    var q := 0;
    while q < |qual.value|
      invariant q <= |qual.value| && at == |prefix| + q <= |selector| && selector[..at] == want[..at]
    {
      var c := Clean(qual.value[q], sanitize);
      assert want[at] == c;
      if at == |selector| || c != selector[at] { return false; }
      q, at := q + 1, at + 1;
    }
    assert want[..at] == want;
    return at == |selector|;
  }

  /**
   A nonempty selector names a qualifier exactly when it is the text a listing shows for it. A
   qualifier that is present is never empty (src/adb.c:445-457).
   */
  lemma NamesWhatIsListed(selector: string, prefix: string, qual: Option<string>, sanitize: bool)
    requires selector != "" && (qual.Some? ==> qual.value != "")
    ensures Names(selector, prefix, qual, sanitize) <==> " " + selector == Listed(prefix, qual, sanitize)
  {
    if qual.None? { return; }
    var shown := Listed(prefix, qual, sanitize);
    assert shown[1..] == prefix + Sanitized(qual.value, sanitize);
    assert (" " + selector)[1..] == selector;
    assert shown == " " + shown[1..];
  }

  // ---- selection ----

  predicate BySerial(d: Device, serial: string) {
    || d.serial == Some(serial) || d.devpath == Some(serial)
    || Names(serial, "product:", d.product, false) || Names(serial, "model:", d.model, true)
    || Names(serial, "device:", d.device, false)
  }

  /** The fields of the long listing that name device d (src/transport.c:939-956). */
  function Shown(d: Device): seq<string> {
    [Listed("", d.devpath, false), Listed("product:", d.product, false), Listed("model:", d.model, true),
     Listed("device:", d.device, false)]
  }

  /** A qualifier that is present is never empty (src/adb.c:445-457). */
  predicate Qualified(d: Device) {
    && d.devpath != Some("") && d.product != Some("") && d.model != Some("") && d.device != Some("")
  }

  /** A nonempty selector picks a device exactly when it is its serial number or a field that the listing shows. */
  lemma SelectsWhatIsShown(d: Device, selector: string)
    requires Qualified(d) && selector != ""
    ensures BySerial(d, selector) <==> d.serial == Some(selector) || " " + selector in Shown(d)
  {
    hide Names;
    NamesWhatIsListed(selector, "product:", d.product, false);
    NamesWhatIsListed(selector, "model:", d.model, true);
    NamesWhatIsListed(selector, "device:", d.device, false);
    ShownPath(selector, d.devpath);
    var shown := Shown(d);
    assert shown[0] == Listed("", d.devpath, false) && shown[1] == Listed("product:", d.product, false);
    assert shown[2] == Listed("model:", d.model, true) && shown[3] == Listed("device:", d.device, false);
    hide Listed;
  }

  lemma ShownPath(selector: string, path: Option<string>)
    requires path != Some("") && selector != ""
    ensures path == Some(selector) <==> " " + selector == Listed("", path, false)
  {
    if path.Some? {
      assert Sanitized(path.value, false) == path.value && "" + path.value == path.value;
      assert (" " + path.value)[1..] == path.value && (" " + selector)[1..] == selector;
    }
  }

  /**
   Without a selector any device will do for the kind "any", one on USB for USB and an emulator for "local", and a
   device out of reach for none of them.
   */
  lemma FitsKind(d: Device)
    ensures Fits(d, Any, None) <==> d.state != Graph.NoPerm
    ensures Fits(d, Usb, None) <==> Fits(d, Any, None) && d.kind == Usb
    ensures Fits(d, Local, None) <==> Fits(d, Any, None) && d.kind == Local
    ensures !Fits(d, HostOnly, None)
  {
  }

  predicate ByKind(d: Device, kind: Kind) {
    kind.Any? || (kind.Usb? && d.kind.Usb?) || (kind.Local? && d.kind.Local?)
  }

  /** A device that may be used and that the selector, or without one the kind, matches. */
  predicate Fits(d: Device, kind: Kind, serial: Option<string>) {
    d.state != Graph.NoPerm && if serial.Some? then BySerial(d, serial.value) else ByKind(d, kind)
  }

  ghost predicate Two(list: seq<Device>, kind: Kind, serial: Option<string>) {
    exists i, j :: 0 <= i < j < |list| && Fits(list[i], kind, serial) && Fits(list[j], kind, serial)
  }

  ghost predicate OnlyOne(list: seq<Device>, kind: Kind, serial: Option<string>, i: nat) {
    i < |list| && Fits(list[i], kind, serial) && forall j :: 0 <= j < |list| && Fits(list[j], kind, serial) ==> j == i
  }

  method MatchesSerial(d: Device, serial: string) returns (r: bool)
    ensures r == BySerial(d, serial)
  {
    if d.serial == Some(serial) || d.devpath == Some(serial) { return true; }
    r := QualMatch(serial, "product:", d.product, false);
    if !r { r := QualMatch(serial, "model:", d.model, true); }
    if !r { r := QualMatch(serial, "device:", d.device, false); }
  }

  ghost predicate NoneFits(list: seq<Device>, kind: Kind, serial: Option<string>) {
    forall i :: 0 <= i < |list| ==> !Fits(list[i], kind, serial)
  }

  ghost predicate Barred(list: seq<Device>) {
    exists i :: 0 <= i < |list| && list[i].state == Graph.NoPerm
  }

  lemma OneMore(list: seq<Device>, kind: Kind, serial: Option<string>, k: nat)
    requires k < |list|
    ensures NoneFits(list[..k], kind, serial) ==>
              if Fits(list[k], kind, serial) then OnlyOne(list[..k + 1], kind, serial, k)
                    else NoneFits(list[..k + 1], kind, serial)
    ensures forall i :: OnlyOne(list[..k], kind, serial, i) ==>
              if Fits(list[k], kind, serial) then Two(list, kind, serial) else OnlyOne(list[..k + 1], kind, serial, i)
    ensures Barred(list[..k + 1]) <==> Barred(list[..k]) || list[k].state == Graph.NoPerm
  {
    hide Fits;
    var l, m := list[..k], list[..k + 1];
    assert forall i :: 0 <= i < k ==> l[i] == m[i] == list[i];
    assert m[k] == list[k];
    forall i: nat | OnlyOne(l, kind, serial, i)
      ensures if Fits(list[k], kind, serial) then Two(list, kind, serial) else OnlyOne(m, kind, serial, i)
    {
      assert Fits(list[i], kind, serial);
    }
    if Barred(l) {
      var i :| 0 <= i < |l| && l[i].state == Graph.NoPerm;
      assert m[i].state == Graph.NoPerm;
    }
  }

  /** The walk over the list; it stops at a second device that fits. */
  method Search(list: seq<Device>, kind: Kind, serial: Option<string>)
    returns (found: Option<nat>, error: Trouble, ambiguous: bool)
    ensures ambiguous ==>
              Two(list, kind, serial) && found.None? && error == MoreThanOne(if serial.Some? then Usb else kind)
    ensures found.Some? ==> OnlyOne(list, kind, serial, found.value)
    ensures !ambiguous && found.None? ==>
              NoneFits(list, kind, serial) && error == if Barred(list) then NoPermission else NotFound
  {
    hide Fits, OnlyOne, NoneFits, Barred, Two;
    found, error, ambiguous := None, NotFound, false;
    NothingYet(kind, serial);
    assert list[..0] == [];
    for k := 0 to |list|
      invariant found.None? ==>
                  NoneFits(list[..k], kind, serial) && error == if Barred(list[..k]) then NoPermission else NotFound
      invariant found.Some? ==> OnlyOne(list[..k], kind, serial, found.value)
      invariant !ambiguous
    {
      OneMore(list, kind, serial, k);
      NeverBarred(list[k], kind, serial);
      if list[k].state == Graph.NoPerm {
        error := NoPermission;
      } else {
        var hit := ByKind(list[k], kind);
        if serial.Some? {
          hit := MatchesSerial(list[k], serial.value);
        }
        if hit {
          if found.Some? {
            return None, MoreThanOne(if serial.Some? then Usb else kind), true;
          }
          found := Some(k);
        }
      }
    }
    assert list[..|list|] == list;
  }

  lemma NothingYet(kind: Kind, serial: Option<string>)
    ensures NoneFits([], kind, serial) && !Barred([])
  {
  }

  lemma NeverBarred(d: Device, kind: Kind, serial: Option<string>)
    ensures Fits(d, kind, serial) ==
            (d.state != Graph.NoPerm && if serial.Some? then BySerial(d, serial.value) else ByKind(d, kind))
  {
  }

  lemma OneIsNotTwo(list: seq<Device>, kind: Kind, serial: Option<string>, i: nat)
    requires OnlyOne(list, kind, serial, i)
    ensures !Two(list, kind, serial) && !NoneFits(list, kind, serial)
    ensures forall j :: OnlyOne(list, kind, serial, j) ==> j == i
  {
    hide Fits;
  }

  lemma NoneIsNotOne(list: seq<Device>, kind: Kind, serial: Option<string>)
    ensures NoneFits(list, kind, serial) || Two(list, kind, serial) ==> forall i :: !OnlyOne(list, kind, serial, i)
    ensures !(NoneFits(list, kind, serial) && Two(list, kind, serial))
  {
    hide Fits;
  }

  /**
   One pass: a device is returned exactly when it alone fits and its state is acceptable, "more than
   one" is reported exactly when two fit, and the other errors say why there is no result.
   */
  method AcquireOnce(list: seq<Device>, state: Option<Graph.ConnState>, kind: Kind, serial: Option<string>)
    returns (result: Option<nat>, error: Option<Trouble>, again: bool)
    ensures forall i: nat :: result == Some(i) <==>
              && OnlyOne(list, kind, serial, i) && list[i].state != Graph.Unauthorized && list[i].state != Graph.Offline
              && (state.Some? ==> list[i].state == state.value)
    ensures error.None? <==> result.Some?
    ensures error.Some? && error.value.MoreThanOne? <==> Two(list, kind, serial)
    ensures Two(list, kind, serial) ==> error == Some(MoreThanOne(if serial.Some? then Usb else kind))
    ensures error == Some(WrongState) <==>
              exists i: nat :: OnlyOne(list, kind, serial, i) && state.Some? && list[i].state != state.value
                               && list[i].state != Graph.Unauthorized && list[i].state != Graph.Offline
    ensures error == Some(NotFound) <==> NoneFits(list, kind, serial) && !Barred(list)
    ensures error == Some(NoPermission) <==> NoneFits(list, kind, serial) && Barred(list)
    ensures error == Some(DeviceUnauthorized) <==>
              exists i: nat :: OnlyOne(list, kind, serial, i) && list[i].state == Graph.Unauthorized
    ensures error == Some(DeviceOffline) <==>
              exists i: nat :: OnlyOne(list, kind, serial, i) && list[i].state == Graph.Offline
    ensures again <==> result.None? && state.Some? && (serial.Some? || !Two(list, kind, serial))
  {
    var found, trouble, ambiguous := Search(list, kind, serial);
    NoneIsNotOne(list, kind, serial);
    result, error := found, Some(trouble);
    if found.Some? {
      OneIsNotTwo(list, kind, serial, found.value);
      var s := list[found.value].state;
      if s == Graph.Unauthorized {
        error, result := Some(DeviceUnauthorized), None;
      } else if s == Graph.Offline {
        error, result := Some(DeviceOffline), None;
      } else if state.Some? && s != state.value {
        error, result := Some(WrongState), None;
      } else {
        error := None;
      }
    }
    hide Fits, Two, NoneFits, Barred;
    again := result.None? && state.Some? && (serial.Some? || !ambiguous);
  }
}
