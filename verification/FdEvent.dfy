/**
 The event loop over select (src/fdevent.c:251-686): three descriptor sets, the table of entries, the
 high-water mark and the pending list, changed step by step, and what must agree between them.

 `Loop` is the state as a value with one function per operation; `FdLoop` holds it in fields and runs
 the program's own loops. Event masks are sets of their named bits.
 */
module FdEvent {
  import opened Lists

  type Ref = nat

  datatype Event = Read | Write | Error | Timeout | DontClose

  type Mask = set<Event>

  /** An fdevent; `active` and `pending` are its state bits. */
  datatype Fde = Fde(fd: nat, active: bool, pending: bool, watch: Mask, events: Mask)

  datatype Loop = Loop(table: seq<Option<Ref>>, readFds: set<nat>, writeFds: set<nat>, errorFds: set<nat>,
                       selectN: nat, pending: seq<Ref>, fdes: map<Ref, Fde>)

  const EmptyLoop := Loop([], {}, {}, {}, 0, [], map[])

  // ---- what must agree ----

  ghost predicate TableOk(l: Loop) {
    && l.selectN <= |l.table|
    && (forall r :: r in l.fdes && l.fdes[r].active ==>
          l.fdes[r].fd < l.selectN && l.table[l.fdes[r].fd] == Some(r))
    && (forall i :: 0 <= i < |l.table| && l.table[i].Some? ==>
          l.table[i].value in l.fdes && l.fdes[l.table[i].value].active && l.fdes[l.table[i].value].fd == i)
  }

  /** Descriptor i is registered and watched for e. */
  predicate Watches(l: Loop, i: nat, e: Event) {
    && i < |l.table| && l.table[i].Some? && l.table[i].value in l.fdes
    && e in l.fdes[l.table[i].value].watch
  }

  ghost predicate SetsOk(l: Loop) {
    && (forall i :: i in l.readFds <==> Watches(l, i, Read))
    && (forall i :: i in l.writeFds <==> Watches(l, i, Write))
    && (forall i :: i in l.errorFds <==> Watches(l, i, Error))
  }

  ghost predicate PendingOk(l: Loop) {
    && NoDup(l.pending)
    && (forall r :: r in l.pending <==> r in l.fdes && l.fdes[r].pending)
    && (forall r :: r in l.fdes ==> (l.fdes[r].pending <==> l.fdes[r].events != {}))
    && (forall r :: r in l.fdes && l.fdes[r].pending ==> l.fdes[r].active)
  }

  ghost predicate Ok(l: Loop) {
    TableOk(l) && SetsOk(l) && PendingOk(l)
  }

  // ---- the operations ----

  /** fd_table_max once it covers fd. */
  function Capacity(max: nat, fd: nat): (n: nat)
    ensures n > fd && n >= max
    decreases fd + 1 - max
  {
    if max > fd then max else if max == 0 then Capacity(256, fd) else Capacity(2 * max, fd)
  }

  function Doubled(n: nat, times: nat): nat {
    if times == 0 then n else 2 * Doubled(n, times - 1)
  }

  /** The table starts with 256 slots and is doubled until it covers fd, and no further. */
  lemma {:induction false} CapacityIs(max: nat, fd: nat) returns (times: nat)
    ensures var first := if max == 0 then 256 else max;
            Capacity(max, fd) == Doubled(first, times) && (times > 0 ==> Doubled(first, times - 1) <= fd)
    decreases fd + 1 - max
  {
    times := 0;
    if max == 0 {
      times := CapacityIs(256, fd);
    } else if max <= fd {
      var more := CapacityIs(2 * max, fd);
      DoubledOnce(max, more);
      if more > 0 {
        DoubledOnce(max, more - 1);
      }
      times := more + 1;
    }
  }

  lemma {:induction false} DoubledOnce(n: nat, times: nat)
    ensures Doubled(2 * n, times) == Doubled(n, times + 1)
  {
    if times > 0 {
      DoubledOnce(n, times - 1);
    }
  }

  function Grown(table: seq<Option<Ref>>, fd: nat): (t: seq<Option<Ref>>)
    ensures |t| > fd && |t| >= |table|
    ensures t[..|table|] == table && forall i :: |table| <= i < |t| ==> t[i] == None
  {
    table + seq(Capacity(|table|, fd) - |table|, i => None)
  }

  /** fdevent_install. */
  function Install(l: Loop, r: Ref, fd: nat): Loop {
    l.(table := Grown(l.table, fd)[fd := Some(r)], selectN := if fd >= l.selectN then fd + 1 else l.selectN,
       fdes := l.fdes[r := Fde(fd, true, false, {}, {})])
  }

  function Put(s: set<nat>, fd: nat, on: bool): set<nat> {
    if on then s + {fd} else s - {fd}
  }

  /** fdevent_set. */
  function Set(l: Loop, r: Ref, events: Mask): Loop
    requires r in l.fdes
  {
    var f := l.fdes[r];
    if f.watch == events then l
    else
      var m := if f.active then
                 l.(readFds := Put(l.readFds, f.fd, Read in events), writeFds := Put(l.writeFds, f.fd, Write in events),
                    errorFds := Put(l.errorFds, f.fd, Error in events))
               else l;
      if !f.pending then m.(fdes := l.fdes[r := f.(watch := events)])
      else if f.events - events != {} then m.(fdes := l.fdes[r := f.(watch := events, events := f.events - events)])
      else m.(fdes := l.fdes[r := f.(watch := events, events := {}, pending := false)],
              pending := Without(l.pending, r))
  }

  /** The highest registered descriptor below k, or 0. */
  function Top(table: seq<Option<Ref>>, k: nat): (n: nat)
    requires k <= |table|
    ensures k > 0 ==> n < k
    ensures forall i :: 0 <= i < k && table[i].Some? ==> i <= n && table[n].Some?
  {
    if k == 0 then 0 else if table[k - 1].Some? then k - 1 else Top(table, k - 1)
  }

  /** fdevent_remove; the mark is recomputed while the entry is still in the table. */
  function Remove(l: Loop, r: Ref): Loop
    requires r in l.fdes && l.selectN <= |l.table| && (l.fdes[r].active ==> l.fdes[r].fd < |l.table|)
  {
    var f := l.fdes[r];
    var m := if f.pending then l.(pending := Without(l.pending, r)) else l;
    var n := if f.active then
               m.(readFds := l.readFds - {f.fd}, writeFds := l.writeFds - {f.fd}, errorFds := l.errorFds - {f.fd},
                  selectN := Top(l.table, l.selectN) + 1, table := l.table[f.fd := None])
             else m;
    n.(fdes := l.fdes[r := f.(active := false, pending := false, watch := {}, events := {})])
  }

  /** What select says about descriptor i. */
  function Bits(i: nat, rfd: set<nat>, wfd: set<nat>, efd: set<nat>): Mask {
    (if i in rfd then {Read} else {}) + (if i in wfd then {Write} else {}) + (if i in efd then {Error} else {})
  }

  /** Events of one descriptor: recorded, and queued unless the entry already is. */
  function MarkOne(l: Loop, i: nat, events: Mask): Loop {
    if events == {} || i >= |l.table| || l.table[i].None? || l.table[i].value !in l.fdes then l
    else
      var r := l.table[i].value;
      var f := l.fdes[r];
      l.(fdes := l.fdes[r := f.(events := f.events + events, pending := true)],
         pending := if f.pending then l.pending else l.pending + [r])
  }

  /** Every descriptor from i to k. */
  function MarkFrom(l: Loop, i: nat, k: nat, rfd: set<nat>, wfd: set<nat>, efd: set<nat>): Loop
    decreases k - i
  {
    if i >= k then l else MarkFrom(MarkOne(l, i, Bits(i, rfd, wfd, efd)), i + 1, k, rfd, wfd, efd)
  }

  /** Taking the head of the pending list; its events go to the callback. */
  function Dequeue(l: Loop): (r: (Loop, Ref, Mask))
    requires l.pending != [] && l.pending[0] in l.fdes
  {
    var r := l.pending[0];
    (l.(pending := l.pending[1..], fdes := l.fdes[r := l.fdes[r].(events := {}, pending := false)]), r,
     l.fdes[r].events)
  }

  // ---- every operation keeps the agreement ----

  lemma InstallTable(l: Loop, r: Ref, fd: nat)
    requires TableOk(l) && Vacant(l, r, fd)
    ensures TableOk(Install(l, r, fd))
    ensures forall i, e :: Watches(Install(l, r, fd), i, e) <==> Watches(l, i, e)
  {
    var m := Install(l, r, fd);
    var t := Grown(l.table, fd);
    assert forall i :: 0 <= i < |l.table| ==> t[i] == t[..|l.table|][i] == l.table[i];
    assert forall i :: 0 <= i < |l.table| && i != fd ==> m.table[i] == l.table[i];
    assert forall i :: 0 <= i < |m.table| && i != fd && m.table[i].Some? ==> i < |l.table|;
  }

  /** Nothing is registered under the descriptor, and the entry is not registered. */
  predicate Vacant(l: Loop, r: Ref, fd: nat) {
    (fd < |l.table| ==> l.table[fd].None?) && (r in l.fdes ==> !l.fdes[r].active)
  }

  /** The entry is registered under this descriptor already, and nothing has been asked of it. */
  predicate Untouched(l: Loop, r: Ref, fd: nat) {
    && fd < |l.table| && l.table[fd] == Some(r) && r in l.fdes && !l.fdes[r].pending
    && Read !in l.fdes[r].watch && Write !in l.fdes[r].watch && Error !in l.fdes[r].watch
  }

  /** An installation keeps the agreement exactly when neither the entry nor the descriptor is in use. */
  lemma InstallOk(l: Loop, r: Ref, fd: nat)
    requires Ok(l)
    ensures Ok(Install(l, r, fd)) <==> Vacant(l, r, fd) || Untouched(l, r, fd)
  {
    if Vacant(l, r, fd) {
      InstallTable(l, r, fd);
      hide TableOk, Watches, Grown;
    } else if Untouched(l, r, fd) {
      UntouchedOk(l, r, fd);
      hide TableOk, SetsOk, PendingOk, Install;
    } else if Ok(Install(l, r, fd)) {
      TakenNotOk(l, r, fd);
    }
  }

  lemma UntouchedOk(l: Loop, r: Ref, fd: nat)
    requires Ok(l) && Untouched(l, r, fd)
    ensures Ok(Install(l, r, fd))
  {
    var m := Install(l, r, fd);
    assert Grown(l.table, fd) == l.table;
    assert m.table == l.table && m.selectN == l.selectN;
    forall i, e | e == Read || e == Write || e == Error ensures Watches(m, i, e) <==> Watches(l, i, e) {
    }
  }

  lemma TakenNotOk(l: Loop, r: Ref, fd: nat)
    requires Ok(l) && Ok(Install(l, r, fd)) && !Vacant(l, r, fd)
    ensures Untouched(l, r, fd)
  {
    var m := Install(l, r, fd);
    var t := Grown(l.table, fd);
    assert forall i :: 0 <= i < |l.table| ==> t[i] == t[..|l.table|][i] == l.table[i];
    assert m.table[fd] == Some(r) && m.fdes[r].fd == fd;
    assert fd < |l.table| && l.table[fd].Some? ==> l.table[fd] == Some(r);
    assert r in l.fdes && l.fdes[r].active ==> m.table[l.fdes[r].fd] == Some(r);
    assert !Watches(m, fd, Read) && !Watches(m, fd, Write) && !Watches(m, fd, Error);
  }

  lemma SetTable(l: Loop, r: Ref, events: Mask)
    requires TableOk(l) && r in l.fdes
    ensures TableOk(Set(l, r, events))
  {
  }

  lemma SetSets(l: Loop, r: Ref, events: Mask)
    requires TableOk(l) && SetsOk(l) && r in l.fdes
    ensures SetsOk(Set(l, r, events))
  {
    var m := Set(l, r, events);
    var f := l.fdes[r];
    if f.active {
      assert forall e :: Watches(m, f.fd, e) <==> e in events;
    }
    assert forall i, e :: (!f.active || i != f.fd) ==> Watches(m, i, e) == Watches(l, i, e);
  }

  lemma SetPending(l: Loop, r: Ref, events: Mask)
    requires PendingOk(l) && r in l.fdes
    ensures PendingOk(Set(l, r, events))
  {
    WithoutNoDup(l.pending, r);
    hide Without, NoDup;
  }

  lemma SetOk(l: Loop, r: Ref, events: Mask)
    requires Ok(l) && r in l.fdes
    ensures Ok(Set(l, r, events))
  {
    SetTable(l, r, events);
    SetSets(l, r, events);
    SetPending(l, r, events);
    hide TableOk, SetsOk, PendingOk;
  }

  /** What fdevent_set drops from a pending entry is watched afterwards, so select reports it again. */
  lemma SetLosesNothing(l: Loop, r: Ref, events: Mask, e: Event)
    requires Ok(l) && r in l.fdes
    requires e in l.fdes[r].events && e !in Set(l, r, events).fdes[r].events
    ensures var m := Set(l, r, events);
            && Watches(m, m.fdes[r].fd, e)
            && (e == Read ==> m.fdes[r].fd in m.readFds) && (e == Write ==> m.fdes[r].fd in m.writeFds)
            && (e == Error ==> m.fdes[r].fd in m.errorFds)
  {
    SetOk(l, r, events);
    hide Without, NoDup;
  }

  lemma RemoveTable(l: Loop, r: Ref)
    requires TableOk(l) && r in l.fdes
    ensures TableOk(Remove(l, r))
  {
    hide Without;
  }

  lemma RemoveSets(l: Loop, r: Ref)
    requires TableOk(l) && SetsOk(l) && r in l.fdes
    ensures SetsOk(Remove(l, r))
  {
    hide Without, Top;
    var m := Remove(l, r);
    var f := l.fdes[r];
    assert forall i, e :: (f.active && i == f.fd) ==> !Watches(m, i, e);
    assert forall i, e :: (!f.active || i != f.fd) ==> Watches(m, i, e) == Watches(l, i, e);
  }

  lemma RemovePending(l: Loop, r: Ref)
    requires TableOk(l) && PendingOk(l) && r in l.fdes
    ensures PendingOk(Remove(l, r)) && r !in Remove(l, r).pending
  {
    WithoutNoDup(l.pending, r);
    hide Without, NoDup, Top;
  }

  lemma RemoveOk(l: Loop, r: Ref)
    requires Ok(l) && r in l.fdes
    ensures Ok(Remove(l, r)) && r !in Remove(l, r).pending
  {
    RemoveTable(l, r);
    RemoveSets(l, r);
    RemovePending(l, r);
    hide TableOk, SetsOk, PendingOk, Remove;
  }

  /** No other entry, slot or watched bit differs, and the other entries are pending in the same order. */
  ghost predicate OnlyEntry(l: Loop, m: Loop, r: Ref) {
    && (forall q :: q != r && q in l.fdes ==> q in m.fdes && m.fdes[q] == l.fdes[q])
    && (forall q :: q != r && q in m.fdes ==> q in l.fdes)
    && (forall i, q :: q != r && 0 <= i < |l.table| && l.table[i] == Some(q) ==> i < |m.table| && m.table[i] == Some(q))
    && (forall i, q :: q != r && 0 <= i < |m.table| && m.table[i] == Some(q) ==> i < |l.table| && l.table[i] == Some(q))
    && Without(m.pending, r) == Without(l.pending, r)
  }

  lemma InstallTouches(l: Loop, r: Ref, fd: nat)
    requires Ok(l) && Vacant(l, r, fd)
    ensures OnlyEntry(l, Install(l, r, fd), r)
    ensures var m := Install(l, r, fd);
            && r !in m.pending && (forall e :: !Watches(m, fd, e)) && m.fdes[r] == Fde(fd, true, false, {}, {})
            && l.selectN <= m.selectN && fd < m.selectN && (m.selectN == l.selectN || m.selectN == fd + 1)
            && |m.table| == Capacity(|l.table|, fd)
  {
    hide SetsOk, Without;
    var t := Grown(l.table, fd);
    assert forall i :: 0 <= i < |l.table| ==> t[i] == t[..|l.table|][i] == l.table[i];
  }

  /** Afterwards the entry is watched for exactly the given bits, and a queued one keeps exactly its other events. */
  lemma SetTouches(l: Loop, r: Ref, events: Mask)
    requires Ok(l) && r in l.fdes
    ensures OnlyEntry(l, Set(l, r, events), r)
    ensures var m := Set(l, r, events);
            && (l.fdes[r].active ==> forall e :: Watches(m, l.fdes[r].fd, e) <==> e in events)
            && (l.fdes[r].watch != events ==> m.fdes[r].events == l.fdes[r].events - events)
            && (r in m.pending <==> m.fdes[r].events != {}) && m.fdes[r].watch == events
  {
    hide SetsOk, Without, NoDup;
    SetOk(l, r, events);
    WithoutTwice(l.pending, r);
    hide Put;
  }

  lemma {:induction false} WithoutTwice(xs: seq<Ref>, r: Ref)
    ensures Without(Without(xs, r), r) == Without(xs, r)
  {
    assert r !in Without(xs, r);
  }

  /** Afterwards nothing refers to the entry: not the sets, not the table, not the pending list. */
  lemma RemoveTouches(l: Loop, r: Ref)
    requires Ok(l) && r in l.fdes
    ensures OnlyEntry(l, Remove(l, r), r)
    ensures var m := Remove(l, r);
            && r !in m.pending && (forall i :: 0 <= i < |m.table| ==> m.table[i] != Some(r))
            && (l.fdes[r].active ==> var fd := l.fdes[r].fd; fd !in m.readFds + m.writeFds + m.errorFds)
            && m.fdes[r] == Fde(l.fdes[r].fd, false, false, {}, {})
            && (l.fdes[r].active ==> MarkOf(l.table, m.selectN))
  {
    hide SetsOk, Without, NoDup, Top, MarkOf;
    RemoveOk(l, r);
    RemovePlaces(l, r);
    if l.fdes[r].active {
      RemoveMark(l, r);
    }
    WithoutTwice(l.pending, r);
    hide TableOk;
  }

  /** n is one above the highest descriptor in the table. */
  ghost predicate MarkOf(table: seq<Option<Ref>>, n: nat) {
    0 < n <= |table| && table[n - 1].Some? && forall i :: n <= i < |table| ==> table[i].None?
  }

  /** The mark is recomputed while the entry is still in the table. */
  lemma RemoveMark(l: Loop, r: Ref)
    requires TableOk(l) && r in l.fdes && l.fdes[r].active
    ensures MarkOf(l.table, Remove(l, r).selectN)
  {
    hide Without;
    var fd := l.fdes[r].fd;
    assert l.table[fd].Some?;
  }

  lemma RemovePlaces(l: Loop, r: Ref)
    requires TableOk(l) && r in l.fdes
    ensures var m := Remove(l, r);
            && |m.table| == |l.table| && (forall i :: 0 <= i < |m.table| ==> m.table[i] != Some(r))
            && forall i :: 0 <= i < |l.table| && l.table[i] != Some(r) ==> m.table[i] == l.table[i]
  {
    hide Top, Without;
  }

  lemma MarkOneOk(l: Loop, i: nat, events: Mask)
    requires Ok(l)
    ensures Ok(MarkOne(l, i, events))
  {
    var m := MarkOne(l, i, events);
    assert forall j, e :: Watches(m, j, e) == Watches(l, j, e);
    hide Watches;
  }

  /**
   A scan leaves everything but events and the pending list alone: an entry gains exactly the bits
   reported for its descriptor, and entries with any are queued behind those that already were.
   */
  lemma {:induction false} MarkFromDoes(l: Loop, i: nat, k: nat, rfd: set<nat>, wfd: set<nat>, efd: set<nat>)
    requires Ok(l)
    ensures var m := MarkFrom(l, i, k, rfd, wfd, efd);
            && Ok(m) && l.pending <= m.pending && m.fdes.Keys == l.fdes.Keys
            && m == l.(fdes := m.fdes, pending := m.pending)
            && forall r :: r in l.fdes ==>
                 var f := l.fdes[r];
                 var got := if f.active && i <= f.fd < k then Bits(f.fd, rfd, wfd, efd) else {};
                 m.fdes[r] == f.(events := f.events + got, pending := f.pending || got != {})
    decreases k - i
  {
    hide Bits, Ok, MarkOne;
    if i < k {
      var n := MarkOne(l, i, Bits(i, rfd, wfd, efd));
      MarkOneOk(l, i, Bits(i, rfd, wfd, efd));
      MarkOneDoes(l, i, Bits(i, rfd, wfd, efd));
      MarkFromDoes(n, i + 1, k, rfd, wfd, efd);
    }
  }

  lemma MarkOneDoes(l: Loop, i: nat, events: Mask)
    requires Ok(l)
    ensures var m := MarkOne(l, i, events);
            && l.pending <= m.pending && m.fdes.Keys == l.fdes.Keys && m == l.(fdes := m.fdes, pending := m.pending)
            && forall r :: r in l.fdes ==>
                 var f := l.fdes[r];
                 var got := if f.active && f.fd == i then events else {};
                 m.fdes[r] == f.(events := f.events + got, pending := f.pending || got != {})
  {
    hide SetsOk, PendingOk;
    assert forall r :: r in l.fdes ==> l.fdes[r].events + {} == l.fdes[r].events;
  }

  lemma DequeueOk(l: Loop)
    requires Ok(l) && l.pending != []
    ensures l.pending[0] in l.fdes && Ok(Dequeue(l).0)
    ensures var (m, r, events) := Dequeue(l); l.fdes[r].active && events != {} && r !in m.pending
  {
    var m := Dequeue(l).0;
    assert forall j, e :: Watches(m, j, e) == Watches(l, j, e);
    hide Watches;
  }

  // ---- runs ----

  /** A callback: its entry and events, and whether the entry was registered then. */
  datatype Call = Call(r: Ref, events: Mask, registered: bool)

  datatype Action = AInstall(r: Ref, fd: nat) | ASet(r: Ref, events: Mask) | ARemove(r: Ref)
                  | AReport(rfd: set<nat>, wfd: set<nat>, efd: set<nat>) | ADispatch | AExit(fd: nat)

  ghost predicate Can(l: Loop, a: Action) {
    match a
    case AInstall(r, fd) => Vacant(l, r, fd)
    case ASet(r, _) => r in l.fdes
    case ARemove(r) => r in l.fdes
    case ADispatch => l.pending != []
    case _ => true
  }

  /** A descriptor whose process has exited: its entry is told to read, at once unless it is queued. */
  function Exited(l: Loop, fd: nat): Loop {
    if fd < |l.table| && l.table[fd].Some? && l.table[fd].value in l.fdes && l.fdes[l.table[fd].value].pending
    then MarkOne(l, fd, {Read}) else l
  }

  function After(l: Loop, a: Action): Loop
    requires Ok(l) && Can(l, a)
  {
    match a
    case AInstall(r, fd) => Install(l, r, fd)
    case ASet(r, events) => Set(l, r, events)
    case ARemove(r) => Remove(l, r)
    case AReport(rfd, wfd, efd) => MarkFrom(l, 0, l.selectN, rfd, wfd, efd)
    case ADispatch => Dequeue(l).0
    case AExit(fd) => Exited(l, fd)
  }

  ghost predicate Runs(l: Loop, acts: seq<Action>, m: Loop)
    decreases |acts|
  {
    if acts == [] then l == m
    else Ok(l) && Can(l, acts[0]) && Runs(After(l, acts[0]), acts[1..], m)
  }

  lemma ActionOk(l: Loop, a: Action)
    requires Ok(l) && Can(l, a)
    ensures Ok(After(l, a))
  {
    hide Ok, Install, Set, Remove, MarkOne, MarkFrom, Dequeue;
    match a
    case AInstall(r, fd) => InstallOk(l, r, fd);
    case ASet(r, events) => SetOk(l, r, events);
    case ARemove(r) => RemoveOk(l, r);
    case AReport(rfd, wfd, efd) => MarkFromDoes(l, 0, l.selectN, rfd, wfd, efd);
    case ADispatch => DequeueOk(l);
    case AExit(fd) => MarkOneOk(l, fd, {Read});
  }

  /** An entry that is not registered stays so until it is installed again. */
  lemma StaysOut(l: Loop, a: Action, r: Ref)
    requires Ok(l) && Can(l, a) && r in l.fdes && !l.fdes[r].active && !(a.AInstall? && a.r == r)
    ensures r in After(l, a).fdes && !After(l, a).fdes[r].active
  {
    hide Without, NoDup, Top, Grown, MarkFrom, SetsOk;
    match a
    case AReport(rfd, wfd, efd) => MarkFromDoes(l, 0, l.selectN, rfd, wfd, efd);
    case _ =>
  }

  /** After any actions the books agree, from any state in which they do. */
  lemma {:induction false} RunOk(l: Loop, acts: seq<Action>, m: Loop)
    requires Ok(l) && Runs(l, acts, m)
    ensures Ok(m)
    decreases |acts|
  {
    hide Ok, After, Can;
    if acts != [] {
      ActionOk(l, acts[0]);
      RunOk(After(l, acts[0]), acts[1..], m);
    }
  }

  /** A removed entry is never queued, so never called back, until it is installed again. */
  lemma {:induction false} NeverCalledBack(l: Loop, acts: seq<Action>, m: Loop, r: Ref)
    requires Ok(l) && Runs(l, acts, m) && r in l.fdes && !l.fdes[r].active
    requires forall k :: 0 <= k < |acts| && acts[k].AInstall? ==> acts[k].r != r
    ensures r in m.fdes && !m.fdes[r].active && r !in m.pending
    decreases |acts|
  {
    if acts != [] {
      ActionOk(l, acts[0]);
      StaysOut(l, acts[0], r);
      hide Ok, After, Can;
      NeverCalledBack(After(l, acts[0]), acts[1..], m, r);
    } else {
      hide TableOk, SetsOk;
    }
  }

  // ---- events that are no longer wanted ----

  /** A READ is queued for entry r only while it is watched for. */
  predicate Wanted(l: Loop, r: Ref) {
    r in l.fdes && Read in l.fdes[r].events ==> Read in l.fdes[r].watch
  }

  /** The interest is dropped while a READ is queued: fdevent_set takes off the bits that are still wanted instead. */
  predicate Drops(l: Loop, a: Action, r: Ref) {
    a.ASet? && a.r == r && Read !in a.events && r in l.fdes && Read in l.fdes[r].events
  }

  /** A READ is recorded that is not watched for: faked for a bad descriptor, or for the exit of a process. */
  predicate Fakes(l: Loop, a: Action, r: Ref) {
    && r in l.fdes && Read !in l.fdes[r].watch
    && ((a.AReport? && l.fdes[r].fd in a.rfd) || (a.AExit? && a.fd == l.fdes[r].fd))
  }

  ghost predicate Careful(l: Loop, acts: seq<Action>, r: Ref)
    decreases |acts|
  {
    acts == [] ||
    (Ok(l) && Can(l, acts[0]) && !Drops(l, acts[0], r) && !Fakes(l, acts[0], r)
     && Careful(After(l, acts[0]), acts[1..], r))
  }

  lemma StaysWanted(l: Loop, a: Action, r: Ref)
    requires Ok(l) && Can(l, a) && Wanted(l, r) && !Drops(l, a, r) && !Fakes(l, a, r)
    ensures Wanted(After(l, a), r)
  {
    hide Without, NoDup, Top, Grown, MarkFrom, SetsOk, PendingOk, Set, MarkOne;
    match a
    case ASet(q, events) => SetWanted(l, q, events, r);
    case AReport(rfd, wfd, efd) => MarkFromDoes(l, 0, l.selectN, rfd, wfd, efd);
    case AExit(fd) => MarkOneDoes(l, fd, {Read});
    case _ =>
  }

  lemma SetWanted(l: Loop, q: Ref, events: Mask, r: Ref)
    requires q in l.fdes && Wanted(l, r) && !Drops(l, ASet(q, events), r)
    ensures Wanted(Set(l, q, events), r)
  {
    hide Without, Put;
  }

  /**
   A callback is told to read without being watched for reading only if the interest was dropped
   while the event was queued, or the event was faked for a bad descriptor or an exited process.
   */
  lemma {:induction false} NoStale(l: Loop, acts: seq<Action>, m: Loop, r: Ref)
    requires Ok(l) && Runs(l, acts, m) && Wanted(l, r) && Careful(l, acts, r)
    ensures Wanted(m, r)
    decreases |acts|
  {
    hide Ok, After, Can, Wanted, Drops, Fakes;
    if acts != [] {
      ActionOk(l, acts[0]);
      StaysWanted(l, acts[0], r);
      NoStale(After(l, acts[0]), acts[1..], m, r);
    }
  }

  /** While callbacks run nothing is reported, so an entry that is not queued stays so: none of its own sets drops. */
  lemma {:induction false} NotQueued(l: Loop, acts: seq<Action>, m: Loop, r: Ref)
    requires Ok(l) && Runs(l, acts, m) && r in l.fdes && !l.fdes[r].pending
    requires forall k :: 0 <= k < |acts| ==> !acts[k].AReport?
    ensures r in m.fdes && !m.fdes[r].pending && m.fdes[r].events == {}
    decreases |acts|
  {
    if acts != [] {
      ActionOk(l, acts[0]);
      NotQueuedStep(l, acts[0], r);
      hide Ok, After, Can;
      NotQueued(After(l, acts[0]), acts[1..], m, r);
    }
    hide TableOk, SetsOk;
  }

  lemma NotQueuedStep(l: Loop, a: Action, r: Ref)
    requires Ok(l) && Can(l, a) && r in l.fdes && !l.fdes[r].pending && !a.AReport?
    ensures r in After(l, a).fdes && !After(l, a).fdes[r].pending
  {
    hide Without, NoDup, Top, Grown, SetsOk;
  }

  // ---- the loops ----

  datatype Selected = Ready(rfd: set<nat>, wfd: set<nat>, efd: set<nat>) | Interrupted | BadFd | Failed

  /** What a callback may do to the loop. */
  datatype Op = DoInstall(r: Ref, fd: int) | DoSet(r: Ref, events: Mask) | DoAdd(r: Ref, events: Mask)
              | DoDel(r: Ref, events: Mask) | DoRemove(r: Ref) | DoExit(fd: int)

  function AtLeast(s: set<nat>, i: nat): set<nat> {
    set x | x in s && x >= i
  }

  lemma AtLeastStep(s: set<nat>, i: nat)
    ensures |AtLeast(s, i)| == |AtLeast(s, i + 1)| + (if i in s then 1 else 0)
  {
    if i in s {
      assert AtLeast(s, i) == AtLeast(s, i + 1) + {i};
    } else {
      assert AtLeast(s, i) == AtLeast(s, i + 1);
    }
  }

  lemma AtLeastAll(s: set<nat>)
    ensures AtLeast(s, 0) == s
  {
  }

  lemma NoneLeft(s: set<nat>, i: nat)
    requires |AtLeast(s, i)| == 0
    ensures forall x :: x in s ==> x < i
  {
    forall x | x in s ensures x < i {
      assert x !in AtLeast(s, i);
    }
  }

  /** How many reported bits belong to descriptors from i on. */
  function BitsLeft(i: nat, rfd: set<nat>, wfd: set<nat>, efd: set<nat>): nat {
    |AtLeast(rfd, i)| + |AtLeast(wfd, i)| + |AtLeast(efd, i)|
  }

  function BitsAt(i: nat, rfd: set<nat>, wfd: set<nat>, efd: set<nat>): nat {
    (if i in rfd then 1 else 0) + (if i in wfd then 1 else 0) + (if i in efd then 1 else 0)
  }

  lemma BitsLeftStep(i: nat, rfd: set<nat>, wfd: set<nat>, efd: set<nat>)
    ensures BitsLeft(i, rfd, wfd, efd) == BitsLeft(i + 1, rfd, wfd, efd) + BitsAt(i, rfd, wfd, efd)
  {
    hide AtLeast;
    AtLeastStep(rfd, i);
    AtLeastStep(wfd, i);
    AtLeastStep(efd, i);
  }

  lemma AllBitsLeft(rfd: set<nat>, wfd: set<nat>, efd: set<nat>)
    ensures BitsLeft(0, rfd, wfd, efd) == |rfd| + |wfd| + |efd|
  {
    AtLeastAll(rfd);
    AtLeastAll(wfd);
    AtLeastAll(efd);
  }

  /** Once they are all accounted for, the rest of the scan changes nothing. */
  lemma NoBitsLeft(l: Loop, i: nat, k: nat, rfd: set<nat>, wfd: set<nat>, efd: set<nat>)
    requires BitsLeft(i, rfd, wfd, efd) == 0
    ensures MarkFrom(l, i, k, rfd, wfd, efd) == l
  {
    hide AtLeast, MarkFrom;
    NoneLeft(rfd, i);
    NoneLeft(wfd, i);
    NoneLeft(efd, i);
    MarkRest(l, i, k, rfd, wfd, efd);
  }

  lemma MarkInTable(l: Loop)
    requires Ok(l)
    ensures l.selectN <= |l.table|
  {
    hide SetsOk, PendingOk;
  }

  lemma MarkNothing(l: Loop, i: nat)
    ensures MarkOne(l, i, {}) == l
  {
  }

  lemma MarkFromStep(l: Loop, i: nat, k: nat, rfd: set<nat>, wfd: set<nat>, efd: set<nat>)
    requires i < k
    ensures MarkFrom(l, i, k, rfd, wfd, efd) == MarkFrom(MarkOne(l, i, Bits(i, rfd, wfd, efd)), i + 1, k, rfd, wfd, efd)
  {
    hide MarkOne, Bits;
  }

  lemma MarkEnd(l: Loop, k: nat, rfd: set<nat>, wfd: set<nat>, efd: set<nat>)
    ensures MarkFrom(l, k, k, rfd, wfd, efd) == l
  {
  }

  /** select is asked about registered descriptors below the mark only. */
  lemma WatchedBelow(l: Loop, i: nat)
    requires Ok(l) && i in l.readFds + l.writeFds + l.errorFds
    ensures i < l.selectN <= |l.table| && l.table[i].Some?
  {
    assert Watches(l, i, Read) || Watches(l, i, Write) || Watches(l, i, Error);
    hide PendingOk;
  }

  lemma ReportedBelow(l: Loop, rfd: set<nat>, wfd: set<nat>, efd: set<nat>)
    requires Ok(l) && rfd <= l.readFds && wfd <= l.writeFds && efd <= l.errorFds
    ensures forall i :: i in rfd + wfd + efd ==> i < l.selectN <= |l.table| && l.table[i].Some?
  {
    hide Ok;
    forall i | i in rfd + wfd + efd ensures i < l.selectN <= |l.table| && l.table[i].Some? {
      WatchedBelow(l, i);
    }
  }

  /** Nothing to report from i on: the rest of the scan changes nothing. */
  lemma {:induction false} MarkRest(l: Loop, i: nat, k: nat, rfd: set<nat>, wfd: set<nat>, efd: set<nat>)
    requires forall x :: x in rfd || x in wfd || x in efd ==> x < i
    ensures MarkFrom(l, i, k, rfd, wfd, efd) == l
    decreases k - i
  {
    if i < k {
      MarkRest(l, i + 1, k, rfd, wfd, efd);
    }
  }

  class FdLoop {
    var table: seq<Option<Ref>>
    var readFds: set<nat>
    var writeFds: set<nat>
    var errorFds: set<nat>
    var selectN: nat
    var pending: seq<Ref>
    var fdes: map<Ref, Fde>

    constructor ()
      ensures St() == EmptyLoop && Ok(St())
    {
      table, readFds, writeFds, errorFds, selectN, pending, fdes := [], {}, {}, {}, 0, [], map[];
    }

    function St(): Loop
      reads this
    {
      Loop(table, readFds, writeFds, errorFds, selectN, pending, fdes)
    }

    /**
     fdevent_install; false where the program stops with a fatal error. What is registered is
     overwritten, so that the tables agree afterwards exactly if the place was vacant or unused.
     */
    method InstallEntry(r: Ref, fd: int) returns (ok: bool)
      requires Ok(St())
      modifies this
      ensures ok == (0 <= fd && (fd < |old(table)| || fd <= 32000))
      ensures St() == if ok then Install(old(St()), r, fd) else old(St())
      ensures Ok(St()) <==> ok ==> Vacant(old(St()), r, fd) || Untouched(old(St()), r, fd)
    {
      hide Ok, Vacant, Untouched;
      if fd < 0 || (fd >= |table| && fd > 32000) { return false; }
      InstallOk(St(), r, fd);
      if fd >= |table| {
        var max := if |table| == 0 then 256 else |table|;
        while max <= fd
          invariant max >= |table| && max > 0
          invariant Capacity(max, fd) == Capacity(|table|, fd)
          decreases fd + 1 - max
        {
          max := max * 2;
        }
        table := table + seq(max - |table|, i => None);
      } else {
        assert Grown(table, fd) == table;
      }
      table := table[fd := Some(r)];
      if fd >= selectN { selectN := fd + 1; }
      fdes := fdes[r := Fde(fd, true, false, {}, {})];
      return true;
    }

    /** fdevent_set. */
    method SetEvents(r: Ref, events: Mask)
      requires Ok(St()) && r in fdes
      modifies this
      ensures St() == Set(old(St()), r, events) && Ok(St())
    {
      SetOk(St(), r, events);
      hide Ok, Without;
      var f := fdes[r];
      if f.watch == events { return; }
      if f.active {
        readFds := Put(readFds, f.fd, Read in events);
        writeFds := Put(writeFds, f.fd, Write in events);
        errorFds := Put(errorFds, f.fd, Error in events);
      }
      f := f.(watch := events);
      if f.pending {
        f := f.(events := f.events - events);
        if f.events == {} {
          pending := Without(pending, r);
          f := f.(pending := false);
        }
      }
      fdes := fdes[r := f];
    }

    /** The scan of fdevent_disconnect. */
    method Rescan()
      requires selectN <= |table|
      modifies `selectN
      ensures selectN == Top(table, old(selectN)) + 1
    {
      var n, i := 0, 0;
      while i < selectN
        invariant i <= selectN && n == Top(table, i)
      {
        if table[i].Some? { n := i; }
        i := i + 1;
      }
      selectN := n + 1;
    }

    /** fdevent_remove; `closed` is whether the descriptor is closed too. */
    method RemoveEntry(r: Ref) returns (closed: bool)
      requires Ok(St()) && r in fdes
      modifies this
      ensures St() == Remove(old(St()), r) && Ok(St()) && r !in pending
      ensures closed == (old(fdes[r].active) && DontClose !in old(fdes[r].watch))
    {
      RemoveOk(St(), r);
      closed := false;
      var f := fdes[r];
      if f.pending { pending := Without(pending, r); }
      if f.active {
        readFds, writeFds, errorFds := readFds - {f.fd}, writeFds - {f.fd}, errorFds - {f.fd};
        Rescan();
        table := table[f.fd := None];
        closed := DontClose !in f.watch;
      }
      fdes := fdes[r := f.(active := false, pending := false, watch := {}, events := {})];
    }

    /** fdevent_fd_check: registered descriptors that the system no longer knows. */
    method FdCheck(bad: set<nat>) returns (rfd: set<nat>, n: nat)
      requires selectN <= |table|
      ensures rfd == (set i | i in bad && i < selectN && table[i].Some?) && n == |rfd|
    {
      rfd, n := {}, 0;
      var i := 0;
      while i < selectN
        invariant i <= selectN && n == |rfd|
        invariant rfd == (set j | j in bad && j < i && table[j].Some?)
      {
        if table[i].Some? && i in bad {
          rfd, n := rfd + {i}, n + 1;
        }
        i := i + 1;
      }
    }

    /** New events for a registered descriptor. */
    method Mark(i: nat, events: Mask)
      requires Ok(St()) && i < |table| && table[i].Some? && events != {}
      modifies `fdes, `pending
      ensures St() == MarkOne(old(St()), i, events) && Ok(St())
    {
      MarkOneOk(St(), i, events);
      hide SetsOk, PendingOk;
      var r := table[i].value;
      fdes := fdes[r := fdes[r].(events := fdes[r].events + events)];
      if !fdes[r].pending {
        fdes := fdes[r := fdes[r].(pending := true)];
        pending := pending + [r];
      }
    }

    /** The bits of descriptor i, and how many there are. */
    method BitsOf(i: nat, rfd: set<nat>, wfd: set<nat>, efd: set<nat>) returns (events: Mask, n: nat)
      ensures events == Bits(i, rfd, wfd, efd)
      ensures n == BitsAt(i, rfd, wfd, efd)
      ensures events != {} ==> i in rfd + wfd + efd
    {
      events, n := {}, 0;
      if i in rfd { events, n := events + {Read}, n + 1; }
      if i in wfd { events, n := events + {Write}, n + 1; }
      if i in efd { events, n := events + {Error}, n + 1; }
    }

    /** One descriptor of the scan, and how many bits it had. */
    method ScanOne(i: nat, rfd: set<nat>, wfd: set<nat>, efd: set<nat>) returns (seen: nat)
      requires Ok(St()) && i < |table| && (i in rfd + wfd + efd ==> table[i].Some?)
      modifies `fdes, `pending
      ensures St() == MarkOne(old(St()), i, Bits(i, rfd, wfd, efd)) && Ok(St())
      ensures seen == BitsAt(i, rfd, wfd, efd)
    {
      hide Ok, BitsAt, MarkOne, Bits;
      var events;
      events, seen := BitsOf(i, rfd, wfd, efd);
      MarkNothing(St(), i);
      if events != {} { Mark(i, events); }
    }

    /** The scan of fdevent_process: it stops as soon as n bits are accounted for. */
    method Scan(rfd: set<nat>, wfd: set<nat>, efd: set<nat>, count: nat)
      requires Ok(St()) && count == |rfd| + |wfd| + |efd|
      requires forall i :: i in rfd + wfd + efd ==> i < selectN && table[i].Some?
      modifies `fdes, `pending
      ensures St() == MarkFrom(old(St()), 0, selectN, rfd, wfd, efd) && Ok(St())
    {
      hide Ok, BitsLeft, BitsAt, MarkOne, MarkFrom, Bits;
      MarkInTable(St());
      var i, n := 0, count;
      AllBitsLeft(rfd, wfd, efd);
      while i < selectN && n > 0
        invariant i <= selectN && Ok(St()) && n == BitsLeft(i, rfd, wfd, efd)
        invariant MarkFrom(St(), i, selectN, rfd, wfd, efd) == MarkFrom(old(St()), 0, selectN, rfd, wfd, efd)
      {
        BitsLeftStep(i, rfd, wfd, efd);
        MarkFromStep(St(), i, selectN, rfd, wfd, efd);
        var seen := ScanOne(i, rfd, wfd, efd);
        i, n := i + 1, n - seen;
      }
      if n == 0 {
        NoBitsLeft(St(), i, selectN, rfd, wfd, efd);
      } else {
        MarkEnd(St(), selectN, rfd, wfd, efd);
      }
    }

    /** fdevent_process: after a bad descriptor, or when nothing is ready, a read is faked for every bad one. */
    method Process(selected: Selected, bad: set<nat>)
      requires Ok(St())
      requires selected.Ready? ==> selected.rfd <= readFds && selected.wfd <= writeFds && selected.efd <= errorFds
      modifies this
      ensures Ok(St())
      ensures var faked := set i | i in bad && i < old(selectN) && old(table)[i].Some?;
              var rfd := if selected.Ready? then selected.rfd else {};
              var wfd := if selected.Ready? then selected.wfd else {};
              var efd := if selected.Ready? then selected.efd else {};
              St() == if selected.Interrupted? || selected.Failed? then old(St())
                      else if selected.BadFd? || (rfd == {} && wfd == {} && efd == {})
                      then MarkFrom(old(St()), 0, old(selectN), faked, {}, {})
                      else MarkFrom(old(St()), 0, old(selectN), rfd, wfd, efd)
    {
      hide Ok, MarkFrom;
      MarkInTable(St());
      match selected
      case Interrupted => return;
      case Failed => return;
      case BadFd =>
        var rfd, n := FdCheck(bad);
        Scan(rfd, {}, {}, n);
      case Ready(rfd, wfd, efd) =>
        var n := |rfd| + |wfd| + |efd|;
        if n == 0 {
          var faked, m := FdCheck(bad);
          Scan(faked, {}, {}, m);
        } else {
          ReportedBelow(St(), rfd, wfd, efd);
          Scan(rfd, wfd, efd, n);
        }
    }

    /** fdevent_plist_dequeue and fdevent_call_fdfunc up to the callback. */
    method Next() returns (r: Ref, events: Mask)
      requires Ok(St()) && pending != []
      modifies `fdes, `pending
      ensures old(pending[0]) in old(fdes) && (St(), r, events) == Dequeue(old(St()))
      ensures Ok(St()) && Registered(r) && events != {} && pending == old(pending[1..])
    {
      DequeueOk(St());
      r := pending[0];
      pending := pending[1..];
      events := fdes[r].events;
      fdes := fdes[r := fdes[r].(events := {}, pending := false)];
    }

    /** fdevent_subproc_event_func for a registered descriptor with nothing left to read. */
    method Exit(fd: nat) returns (called: Option<Ref>)
      requires Ok(St()) && fd < |table| && table[fd].Some?
      modifies `fdes
      ensures St() == Exited(old(St()), fd) && Ok(St())
      ensures called.Some? ==> Registered(called.value)
    {
      MarkOneOk(St(), fd, {Read});
      hide SetsOk, PendingOk;
      called := None;
      var r := table[fd].value;
      if fdes[r].pending {
        fdes := fdes[r := fdes[r].(events := fdes[r].events + {Read})];
      } else {
        called := Some(r);
      }
    }

    /** One operation of a callback, as far as its caller is entitled to it; `called` is an entry called at once. */
    method Do(op: Op) returns (called: Option<Ref>)
      requires Ok(St())
      modifies this
      ensures Ok(St()) && |pending| <= |old(pending)|
      ensures called.Some? ==> Registered(called.value)
      ensures op.DoRemove? && op.r in old(fdes) ==> op.r !in pending && op.r in fdes && !fdes[op.r].active
    {
      called := None;
      hide Ok, Capacity, Top;
      match op
      case DoInstall(r, fd) =>
        if fd < 0 || Vacant(St(), r, fd) {
          var _ := InstallEntry(r, fd);
        }
      case DoSet(r, events) => if r in fdes { SetEvents(r, events); }
      case DoAdd(r, events) => if r in fdes { SetEvents(r, fdes[r].watch + events); }
      case DoDel(r, events) => if r in fdes { SetEvents(r, fdes[r].watch - events); }
      case DoRemove(r) => if r in fdes { var _ := RemoveEntry(r); }
      case DoExit(fd) =>
        if 0 <= fd < |table| && table[fd].Some? {
          called := Exit(fd);
        }
    }

    /** The entry is in the table, under its descriptor. */
    predicate Registered(r: Ref)
      reads this
    {
      r in fdes && fdes[r].active && fdes[r].fd < |table| && table[fdes[r].fd] == Some(r)
    }

    /**
     The drain loop of fdevent_loop, whatever the callbacks do: it ends, nothing is left pending, and
     every callback, from the list or at once, was for an entry registered at that moment and for
     some event.
     */
    method Drain(script: seq<seq<Op>>) returns (calls: seq<Call>)
      requires Ok(St())
      modifies this
      ensures Ok(St()) && pending == []
      ensures forall c :: c in calls ==> c.registered && c.events != {}
    {
      hide Ok;
      calls := [];
      var turn := 0;
      while pending != []
        invariant Ok(St())
        invariant forall c :: c in calls ==> c.registered && c.events != {}
        decreases |pending|
      {
        var r, events := Next();
        calls := calls + [Call(r, events, Registered(r))];
        var ops := if turn < |script| then script[turn] else [];
        turn := turn + 1;
        ghost var left := |pending|;
        for k := 0 to |ops|
          invariant Ok(St()) && |pending| <= left
          invariant forall c :: c in calls ==> c.registered && c.events != {}
        {
          var called := Do(ops[k]);
          if called.Some? { calls := calls + [Call(called.value, {Read}, Registered(called.value))]; }
        }
      }
    }
  }
}
