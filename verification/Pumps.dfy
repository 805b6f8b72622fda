/**
 The two pump threads of a transport and the event loop, step by step under every interleaving
 (src/transport.c:70-86, 260-364, 571-621, 712-735; src/adb.c:535-544).

 The output thread copies packets from the device to the event loop, the input thread copies the
 event loop's packets to the device, and the two sockets of the pair are FIFO queues of packets. A
 read or write of a queue, one locked section and one unlocked access to a shared field are each
 one step.
 */
module Pumps {
  import opened Lists
  import opened Graph

  /**
   How far a thread is. The last five are the way out: close_all_sockets for the input thread,
   kick_transport, then transport_unref.
   */
  datatype Stage = Starting | Announcing | Pumping | Sweeping | Checking | Locking | Kicking | Dropping | Finished

  /**
   `up` is the queue to the event loop, `sent` all that the event loop ever wrote towards the
   device and `taken` how much of it the input thread has read. `handed` is what the input thread
   gave to write_to_remote. `mark` and `told` are history: the place of the first SYNC in `sent`,
   and whether the input thread left because of a SYNC(0).
   */
  datatype Flow = Flow(token: nat, up: seq<Wire>, sent: seq<Wire>, taken: nat, handed: seq<Wire>, active: bool,
                       announced: bool, mark: Option<nat>, told: bool)

  /** How far the event loop is with the removal: off its descriptors, off the list, disowned, freed. */
  datatype Removal = Waiting | Unwatched | Unlisted | Disowned | Freed

  /**
   The stages of the two threads, what they share in the transport object, and the event loop's
   ways to it: the registered descriptor, the transport list, the sockets and forwards on its
   disconnect list, and `held`, the smart sockets of clients that have chosen it. `late` is history:
   whether a client has chosen it after the sweep.
   */
  datatype Life = Life(input: Stage, output: Stage, refs: int, kicked: bool, kicks: nat, closes: nat,
                       removals: nat, removal: Removal, watched: bool, listed: bool, owned: bool,
                       held: bool, late: bool)

  datatype Pump = Pump(flow: Flow, life: Life)

  function Start(token: nat): Pump {
    Pump(Flow(token, [], [], 0, [], false, false, None, false),
         Life(Pumping, Starting, 2, false, 0, 0, 0, Waiting, true, true, true, false, false))
  }

  datatype Thread = Input | Output

  datatype Step =
    | Bump                                  // ++sync_token
    | Announce(ok: bool)                    // write SYNC(1, token)
    | Forward(p: Wire, ok: bool)            // a packet from the device, and whether it was queued
    | Hangup(ok: bool)                      // the device is gone: write SYNC(0, 0)
    | Take                                  // the input thread reads one packet
    | TakeFails
    | Leave(who: Thread)                    // one step of the way out
    | Handle(replies: seq<Wire>)            // the event loop handles one packet
    | Say(p: Wire)                          // the event loop sends a packet of its own
    | Choose                                // a client asks for this transport
    | LetGo                                 // the last client that had chosen it is gone
    | Remove                                // one step of handling the removal message

  ghost predicate NoSync(ws: seq<Wire>) {
    forall i :: 0 <= i < |ws| ==> !ws[i].Sync?
  }

  function StageOf(p: Life, who: Thread): Stage {
    if who.Input? then p.input else p.output
  }

  function Goto(p: Life, who: Thread, s: Stage): Life {
    if who.Input? then p.(input := s) else p.(output := s)
  }

  predicate Leaving(s: Stage) {
    s.Sweeping? || s.Checking? || s.Locking? || s.Kicking? || s.Dropping?
  }

  predicate Swept(p: Life) {
    !p.input.Pumping? && !p.input.Sweeping?
  }

  ghost predicate Enabled(p: Pump, s: Step) {
    match s
    case Bump => p.life.output.Starting?
    case Announce(_) => p.life.output.Announcing?
    case Forward(_, _) => p.life.output.Pumping?
    case Hangup(_) => p.life.output.Pumping?
    case Take => p.life.input.Pumping? && p.flow.taken < |p.flow.sent|
    case TakeFails => p.life.input.Pumping?
    case Leave(who) => Leaving(StageOf(p.life, who))
    case Handle(replies) => p.life.watched && p.flow.up != [] && NoSync(replies)
    case Say(w) => (p.life.listed || p.life.owned || p.life.held) && !w.Sync?
    case Choose => p.life.listed
    case LetGo => p.life.held
    case Remove => if p.life.removal.Waiting? then p.life.removals > 0 else !p.life.removal.Freed?
  }

  /** transport_registration_func for a removal, in its order. */
  function RemoveStep(p: Life): Life
    requires if p.removal.Waiting? then p.removals > 0 else !p.removal.Freed?
  {
    match p.removal
    case Waiting => p.(removals := p.removals - 1, watched := false, removal := Unwatched)
    case Unwatched => p.(listed := false, removal := Unlisted)
    case Unlisted => p.(owned := false, removal := Disowned)
    case Disowned => p.(removal := Freed)
  }

  /** transport_unref: one locked section, the removal message included. */
  function Unref(p: Life): Life {
    var q := p.(refs := p.refs - 1);
    if q.refs != 0 then q
    else
      var k := if q.kicked then q else q.(kicked := true, kicks := q.kicks + 1);
      k.(closes := k.closes + 1, removals := k.removals + 1)
  }

  function LeaveStep(p: Life, who: Thread): Life {
    match StageOf(p, who)
    case Sweeping => Goto(p.(held := false), who, Checking)
    case Checking => Goto(p, who, if p.kicked then Dropping else Locking)
    case Locking => if p.kicked then Goto(p, who, Dropping) else Goto(p.(kicked := true), who, Kicking)
    case Kicking => Goto(p.(kicks := p.kicks + 1), who, Dropping)
    case _ => Goto(Unref(p), who, Finished)
  }

  /** The input thread's loop body: whether it goes on, and what it has done. */
  function TakeStep(p: Flow): (r: (Flow, bool))
    requires p.taken < |p.sent|
  {
    var w := p.sent[p.taken];
    var q := p.(taken := p.taken + 1);
    if w.Sync? then
      if w.online == 0 then (q.(told := true), false)
      else if w.token == p.token then (q.(active := true), true)
      else (q, true)
    else if p.active then (q.(handed := q.handed + [w]), true)
    else (q, true)
  }

  /** What handle_packet sends towards the device for packet w; `replies` when it is no SYNC. */
  function Answer(w: Wire, replies: seq<Wire>): seq<Wire> {
    if !w.Sync? then replies else if w.online != 0 then [w, Cnxn("host::")] else [w]
  }

  function HandleStep(p: Flow, replies: seq<Wire>): Flow
    requires p.up != []
  {
    p.(up := p.up[1..], sent := p.sent + Answer(p.up[0], replies),
       mark := if p.mark.None? && p.up[0].Sync? then Some(|p.sent|) else p.mark)
  }

  function FlowAfter(p: Pump, s: Step): Flow
    requires Enabled(p, s)
  {
    var f := p.flow;
    match s
    case Bump => f.(token := f.token + 1)
    case Announce(ok) => if ok then f.(up := f.up + [Sync(1, f.token)], announced := true) else f
    case Forward(w, ok) => if ok then f.(up := f.up + [w]) else f
    case Hangup(ok) => if ok then f.(up := f.up + [Sync(0, 0)]) else f
    case Take => TakeStep(f).0
    case Handle(replies) => HandleStep(f, replies)
    case Say(w) => f.(sent := f.sent + [w])
    case _ => f
  }

  function LifeAfter(p: Pump, s: Step): Life
    requires Enabled(p, s)
  {
    var l := p.life;
    match s
    case Bump => l.(output := Announcing)
    case Announce(ok) => l.(output := if ok then Pumping else Checking)
    case Forward(_, ok) => if ok then l else l.(output := Checking)
    case Hangup(_) => l.(output := Checking)
    case Take => if TakeStep(p.flow).1 then l else l.(input := Sweeping)
    case TakeFails => l.(input := Sweeping)
    case Leave(who) => LeaveStep(l, who)
    case Choose => l.(held := true, late := l.late || Swept(l))
    case LetGo => l.(held := false)
    case Remove => RemoveStep(l)
    case _ => l
  }

  function Apply(p: Pump, s: Step): Pump
    requires Enabled(p, s)
  {
    Pump(FlowAfter(p, s), LifeAfter(p, s))
  }

  /** The state after a list of steps, each possible when its turn comes. */
  ghost predicate Runs(p: Pump, steps: seq<Step>, q: Pump)
    decreases |steps|
  {
    if steps == [] then p == q
    else Enabled(p, steps[0]) && Runs(Apply(p, steps[0]), steps[1..], q)
  }

  // ---- gating ----

  /** Packets up to the first SYNC(0), without the SYNCs. */
  function UpToOffline(ws: seq<Wire>): seq<Wire> {
    if ws == [] || (ws[0].Sync? && ws[0].online == 0) then []
    else (if ws[0].Sync? then [] else [ws[0]]) + UpToOffline(ws[1..])
  }

  /** What a device is meant to see of ws: what follows the first matching SYNC, up to SYNC(0). */
  function Passed(ws: seq<Wire>, token: nat): seq<Wire> {
    if ws == [] then []
    else if ws[0].Sync? && ws[0].online != 0 && ws[0].token == token then UpToOffline(ws[1..])
    else Passed(ws[1..], token)
  }

  ghost predicate NoOffline(ws: seq<Wire>) {
    forall i :: 0 <= i < |ws| ==> !(ws[i].Sync? && ws[i].online == 0)
  }

  lemma NoOfflineFirst(ws: seq<Wire>)
    requires ws != []
    ensures NoOffline(ws) <==> !(ws[0].Sync? && ws[0].online == 0) && NoOffline(ws[1..])
  {
    if NoOffline(ws[1..]) && !(ws[0].Sync? && ws[0].online == 0) {
      forall i | 0 <= i < |ws| ensures !(ws[i].Sync? && ws[i].online == 0) {
        assert i > 0 ==> ws[i] == ws[1..][i - 1];
      }
    }
  }

  lemma {:induction false} OfflineEnds(a: seq<Wire>, b: seq<Wire>)
    ensures UpToOffline(a) <= UpToOffline(a + b)
    ensures !NoOffline(a) ==> UpToOffline(a + b) == UpToOffline(a)
    ensures NoOffline(a) ==> UpToOffline(a + b) == UpToOffline(a) + UpToOffline(b)
  {
    if a == [] {
      assert a + b == b;
    } else {
      assert (a + b)[1..] == a[1..] + b;
      NoOfflineFirst(a);
      OfflineEnds(a[1..], b);
      hide NoOffline;
      var first := if a[0].Sync? then [] else [a[0]];
      assert first + (UpToOffline(a[1..]) + UpToOffline(b)) == first + UpToOffline(a[1..]) + UpToOffline(b);
    }
  }

  lemma {:induction false} PassedAfter(ws: seq<Wire>, m: nat, token: nat)
    requires m < |ws| && NoSync(ws[..m]) && ws[m].Sync? && ws[m].online != 0 && ws[m].token == token
    ensures Passed(ws, token) == UpToOffline(ws[m + 1..])
  {
    if m > 0 {
      assert !ws[..m][0].Sync?;
      assert ws[1..][..m - 1] == ws[..m][1..];
      PassedAfter(ws[1..], m - 1, token);
      assert ws[1..][m..] == ws[m + 1..];
    }
  }

  lemma {:induction false} PassedNothing(ws: seq<Wire>, token: nat)
    requires NoSync(ws)
    ensures Passed(ws, token) == []
  {
    if ws != [] {
      PassedNothing(ws[1..], token);
    }
  }

  /** The first SYNC the event loop echoes is the output thread's own, with CNXN right behind it. */
  ghost predicate Opened(p: Flow) {
    match p.mark
    case None => NoSync(p.sent)
    case Some(m) =>
      && p.announced && m + 1 < |p.sent| && NoSync(p.sent[..m])
      && p.sent[m] == Sync(1, p.token) && p.sent[m + 1] == Cnxn("host::")
  }

  /** Nothing is queued for the event loop before SYNC(1, token). */
  ghost predicate Queued(p: Flow) {
    && (!p.announced ==> p.up == [])
    && (p.announced && p.mark.None? ==> p.up != [] && p.up[0] == Sync(1, p.token))
  }

  ghost predicate Through(p: Flow) {
    && p.taken <= |p.sent|
    && p.active == (p.mark.Some? && p.mark.value < p.taken)
    && p.handed == (if p.active then UpToOffline(p.sent[p.mark.value + 1..p.taken]) else [])
    && (!p.told ==> NoOffline(p.sent[..p.taken]))
    && (p.told ==> p.active && !NoOffline(p.sent[p.mark.value + 1..p.taken]))
  }

  ghost predicate Gated(p: Pump) {
    && Opened(p.flow) && Queued(p.flow) && Through(p.flow)
    && (p.life.output.Starting? || p.life.output.Announcing? ==> !p.flow.announced)
    && (p.life.output.Pumping? ==> p.flow.announced)
    && (p.life.input.Pumping? ==> !p.flow.told)
  }

  lemma GrowKeeps(p: Flow, ws: seq<Wire>)
    requires Through(p)
    ensures Through(p.(sent := p.sent + ws))
  {
    var q := p.(sent := p.sent + ws);
    assert q.sent[..p.taken] == p.sent[..p.taken];
    if p.active {
      assert q.sent[p.mark.value + 1..p.taken] == p.sent[p.mark.value + 1..p.taken];
    }
  }

  lemma OpenedGrows(p: Flow, ws: seq<Wire>)
    requires Opened(p) && (p.mark.None? ==> NoSync(ws))
    ensures Opened(p.(sent := p.sent + ws))
  {
    if p.mark.Some? {
      assert (p.sent + ws)[..p.mark.value] == p.sent[..p.mark.value];
    }
  }

  /** The first packet the event loop gets is SYNC(1, token); it opens the gate. */
  lemma HandleFirst(p: Flow, replies: seq<Wire>)
    requires Opened(p) && Queued(p) && p.up != [] && p.mark.None?
    ensures Opened(HandleStep(p, replies)) && Queued(HandleStep(p, replies))
  {
    assert (p.sent + [p.up[0], Cnxn("host::")])[..|p.sent|] == p.sent;
  }

  lemma HandleGated(p: Flow, replies: seq<Wire>)
    requires Opened(p) && Queued(p) && Through(p) && p.up != []
    ensures Opened(HandleStep(p, replies)) && Queued(HandleStep(p, replies)) && Through(HandleStep(p, replies))
    ensures HandleStep(p, replies).announced == p.announced && HandleStep(p, replies).told == p.told
  {
    var ws := Answer(p.up[0], replies);
    if p.mark.None? {
      HandleFirst(p, replies);
    } else {
      OpenedGrows(p, ws);
    }
    GrowKeeps(p, ws);
    hide Opened, UpToOffline, NoOffline;
  }

  /** Reading one more packet, as far as the sequences go. */
  lemma SeenGrows(sent: seq<Wire>, m: nat, k: nat)
    requires m <= k < |sent| && NoOffline(sent[..k])
    ensures var w := sent[k];
            && UpToOffline(sent[m..k + 1]) == (if w.Sync? then UpToOffline(sent[m..k])
                  else UpToOffline(sent[m..k]) + [w])
            && NoOffline(sent[..k + 1]) == !(w.Sync? && w.online == 0)
            && NoOffline(sent[m..k + 1]) == !(w.Sync? && w.online == 0)
  {
    var w := sent[k];
    assert sent[..k + 1] == sent[..k] + [w];
    assert sent[m..k + 1] == sent[m..k] + [w];
    assert sent[m..k] == sent[..k][m..];
    assert sent[..k + 1][k] == w && sent[m..k + 1][k - m] == w;
    assert UpToOffline([w]) == if w.Sync? then [] else [w] by {
      assert [w][1..] == [];
    }
    OfflineEnds(sent[m..k], [w]);
    hide UpToOffline;
  }

  /** One more packet through an open gate. */
  lemma TakeOpen(p: Flow)
    requires Through(p) && p.active && !p.told && p.taken < |p.sent|
    ensures Through(TakeStep(p).0) && TakeStep(p).0.told == !TakeStep(p).1
  {
    hide UpToOffline, NoOffline;
    SeenGrows(p.sent, p.mark.value + 1, p.taken);
  }

  /** A shut gate comes to the first SYNC, which is its own, or to a packet before it. */
  lemma FirstSync(p: Flow)
    requires Opened(p) && p.taken < |p.sent| && (p.mark.Some? ==> p.taken <= p.mark.value)
    ensures p.sent[p.taken].Sync? <==> p.mark == Some(p.taken)
    ensures p.mark == Some(p.taken) ==> p.sent[p.taken] == Sync(1, p.token)
  {
    if p.mark.Some? && p.taken < p.mark.value {
      assert p.sent[..p.mark.value][p.taken] == p.sent[p.taken];
    }
  }

  lemma NothingUp(sent: seq<Wire>, k: nat)
    requires k <= |sent|
    ensures UpToOffline(sent[k..k]) == []
  {
    assert sent[k..k] == [];
  }

  /** Packets before the first SYNC are dropped; that SYNC opens the gate. */
  lemma TakeShut(p: Flow)
    requires Through(p) && Opened(p) && !p.active && !p.told && p.taken < |p.sent|
    ensures Through(TakeStep(p).0) && TakeStep(p).0.told == !TakeStep(p).1
  {
    hide Opened, UpToOffline, NoOffline;
    FirstSync(p);
    SeenGrows(p.sent, p.taken, p.taken);
    NothingUp(p.sent, p.taken + 1);
  }

  lemma StepGated(p: Pump, s: Step)
    requires Gated(p) && Enabled(p, s)
    ensures Gated(Apply(p, s))
  {
    hide Opened, Through, NoSync, UpToOffline, NoOffline, HandleStep, TakeStep, LeaveStep, RemoveStep;
    match s
    case Bump => TokenMoves(p.flow);
    case Handle(replies) => HandleGated(p.flow, replies);
    case Say(w) => SayGated(p.flow, w);
    case Take => TakeGated(p);
    case Leave(who) => LeaveFrame(p.life, who);
    case Remove => RemoveFrame(p.life);
    case _ => UpFrame(p.flow, Apply(p, s).flow);
  }

  lemma RemoveFrame(p: Life)
    requires if p.removal.Waiting? then p.removals > 0 else !p.removal.Freed?
    ensures RemoveStep(p).input == p.input && RemoveStep(p).output == p.output
  {
  }

  lemma TakeGated(p: Pump)
    requires Gated(p) && Enabled(p, Take)
    ensures Gated(Apply(p, Take))
  {
    hide Opened, Through, NoSync, UpToOffline, NoOffline, TakeStep;
    if p.flow.active {
      TakeOpen(p.flow);
    } else {
      TakeShut(p.flow);
    }
    TakeFrame(p.flow);
  }

  /** Before SYNC(1) is queued the token may move. */
  lemma TokenMoves(p: Flow)
    requires Opened(p) && Through(p) && Queued(p) && !p.announced
    ensures Opened(p.(token := p.token + 1)) && Through(p.(token := p.token + 1)) && Queued(p.(token := p.token + 1))
  {
  }

  lemma SayGated(p: Flow, w: Wire)
    requires Opened(p) && Through(p) && !w.Sync?
    ensures Opened(p.(sent := p.sent + [w])) && Through(p.(sent := p.sent + [w]))
  {
    OpenedGrows(p, [w]);
    GrowKeeps(p, [w]);
  }

  lemma TakeFrame(p: Flow)
    requires p.taken < |p.sent|
    ensures var q := TakeStep(p).0;
            && q.up == p.up && q.announced == p.announced && q.mark == p.mark && q.token == p.token && q.sent == p.sent
            && (Opened(p) ==> Opened(q))
  {
  }

  lemma UnrefFrame(p: Life)
    ensures Unref(p).input == p.input && Unref(p).output == p.output
  {
  }

  lemma LeaveFrame(p: Life, who: Thread)
    requires Leaving(StageOf(p, who))
    ensures var q := LeaveStep(p, who);
            && (who.Input? ==> q.output == p.output && !q.input.Pumping?)
            && (who.Output? ==> q.input == p.input && (Leaving(q.output) || q.output.Finished?))
  {
    hide Unref;
    UnrefFrame(p);
  }

  lemma UpFrame(p: Flow, q: Flow)
    requires q == p.(up := q.up, announced := q.announced) && (p.announced ==> q.announced)
    ensures Through(p) ==> Through(q)
    ensures Opened(p) ==> Opened(q)
  {
  }

  /**
   In every run: what the device was given is exactly the event loop's packets that the input
   thread has read, after the first matching SYNC and up to the first SYNC(0); so nothing before
   that SYNC, CNXN first, and nothing missing once the input thread left because of SYNC(0).
   */
  lemma {:induction false} GatingHolds(p: Pump, steps: seq<Step>, q: Pump)
    requires Gated(p) && Runs(p, steps, q)
    ensures Gated(q)
    ensures var f := q.flow;
            && f.taken <= |f.sent| && f.handed == Passed(f.sent[..f.taken], f.token)
            && f.handed <= Passed(f.sent, f.token)
            && (f.told ==> f.handed == Passed(f.sent, f.token))
            && (f.handed != [] ==> f.handed[0] == Cnxn("host::"))
    decreases |steps|
  {
    if steps != [] {
      StepGated(p, steps[0]);
      GatingHolds(Apply(p, steps[0]), steps[1..], q);
    } else {
      HandedIsPassed(q.flow);
    }
    hide Opened, Queued, Apply, Enabled;
  }

  lemma HandedIsPassed(q: Flow)
    requires Opened(q) && Through(q)
    ensures q.handed == Passed(q.sent[..q.taken], q.token)
    ensures q.handed <= Passed(q.sent, q.token)
    ensures q.told ==> q.handed == Passed(q.sent, q.token)
    ensures q.handed != [] ==> q.handed[0] == Cnxn("host::")
  {
    if q.active {
      OpenPassed(q.sent, q.mark.value, q.taken, q.token);
    } else {
      assert NoSync(q.sent[..q.taken]) by {
        if q.mark.Some? {
          assert forall i :: 0 <= i < q.taken ==> q.sent[..q.taken][i] == q.sent[..q.mark.value][i];
        }
      }
      PassedNothing(q.sent[..q.taken], q.token);
    }
  }

  lemma FirstUp(ws: seq<Wire>)
    requires ws != [] ==> ws[0] == Cnxn("host::")
    ensures UpToOffline(ws) != [] ==> UpToOffline(ws)[0] == Cnxn("host::")
  {
  }

  lemma CutAt(sent: seq<Wire>, m: nat, k: nat)
    requires m <= k <= |sent|
    ensures sent[..k][m..] == sent[m..k] && sent[m..] == sent[m..k] + sent[k..]
  {
  }

  lemma OpenPassed(sent: seq<Wire>, m: nat, k: nat, token: nat)
    requires m < k <= |sent| && m + 1 < |sent| && NoSync(sent[..m])
    requires sent[m] == Sync(1, token) && sent[m + 1] == Cnxn("host::")
    ensures var seen := sent[m + 1..k];
            && Passed(sent[..k], token) == UpToOffline(seen) && UpToOffline(seen) <= Passed(sent, token)
            && (!NoOffline(seen) ==> UpToOffline(seen) == Passed(sent, token))
            && (UpToOffline(seen) != [] ==> UpToOffline(seen)[0] == Cnxn("host::"))
  {
    var seen := sent[m + 1..k];
    assert sent[..k][..m] == sent[..m];
    hide Passed, UpToOffline, NoOffline;
    PassedAfter(sent[..k], m, token);
    PassedAfter(sent, m, token);
    CutAt(sent, m + 1, k);
    OfflineEnds(seen, sent[k..]);
    FirstUp(seen);
  }

  lemma StartGated(token: nat)
    ensures Gated(Start(token)) && Alive(Start(token).life)
  {
  }

  // ---- lifetime ----

  function Count(b: bool): nat {
    if b then 1 else 0
  }

  /** References, kicks, closes and removals are accounted for by where the two threads are. */
  ghost predicate Alive(p: Life) {
    && p.input != Starting && p.input != Announcing && p.output != Sweeping
    && (Swept(p) && p.held ==> p.late)
    && p.refs == Count(!p.input.Finished?) + Count(!p.output.Finished?)
    && p.kicks + Count(p.input.Kicking?) + Count(p.output.Kicking?) == Count(p.kicked)
    && p.closes == Count(p.refs == 0)
    && p.removals + Count(!p.removal.Waiting?) == p.closes
    && p.watched == p.removal.Waiting?
    && p.listed == (p.removal.Waiting? || p.removal.Unwatched?)
    && p.owned == (p.removal.Waiting? || p.removal.Unwatched? || p.removal.Unlisted?)
    && (p.refs == 0 ==> p.kicked)
  }

  lemma LeaveAlive(p: Life, who: Thread)
    requires Alive(p) && Leaving(StageOf(p, who))
    ensures Alive(LeaveStep(p, who))
  {
    hide Alive, LeaveStep, Unref;
    match StageOf(p, who)
    case Dropping => DropAlive(p, who);
    case _ => TurnAlive(p, who);
  }

  /** The last step of a thread gives its reference back. */
  lemma DropAlive(p: Life, who: Thread)
    requires Alive(p) && StageOf(p, who).Dropping?
    ensures Alive(LeaveStep(p, who))
  {
  }

  lemma TurnAlive(p: Life, who: Thread)
    requires Alive(p) && Leaving(StageOf(p, who)) && !StageOf(p, who).Dropping?
    ensures Alive(LeaveStep(p, who))
  {
    hide Unref;
  }

  /** The output thread moves on, and may begin to leave. */
  lemma OutputAlive(p: Life, s: Stage)
    requires Alive(p) && (p.output.Starting? || p.output.Announcing? || p.output.Pumping?)
    requires s.Announcing? || s.Pumping? || s.Checking?
    ensures Alive(p.(output := s))
  {
  }

  lemma InputAlive(p: Life)
    requires Alive(p) && p.input.Pumping?
    ensures Alive(p.(input := Sweeping))
  {
  }

  lemma RemoveAlive(p: Life)
    requires Alive(p) && if p.removal.Waiting? then p.removals > 0 else !p.removal.Freed?
    ensures Alive(RemoveStep(p))
  {
  }

  lemma HoldAlive(p: Life)
    requires Alive(p)
    ensures Alive(p.(held := true, late := p.late || Swept(p))) && Alive(p.(held := false))
  {
  }

  lemma StepAlive(p: Pump, s: Step)
    requires Alive(p.life) && Enabled(p, s)
    ensures Alive(Apply(p, s).life)
  {
    hide Alive, LeaveStep, NoSync, TakeStep, FlowAfter, RemoveStep, Leaving, Swept;
    match s
    case Bump => OutputAlive(p.life, Announcing);
    case Announce(ok) => OutputAlive(p.life, if ok then Pumping else Checking);
    case Forward(_, _) => OutputAlive(p.life, Checking);
    case Hangup(_) => OutputAlive(p.life, Checking);
    case Take => InputAlive(p.life);
    case TakeFails => InputAlive(p.life);
    case Leave(who) => LeaveAlive(p.life, who);
    case Remove => RemoveAlive(p.life);
    case Choose => HoldAlive(p.life);
    case LetGo => HoldAlive(p.life);
    case _ =>
  }

  /**
   What can still happen is a request of a client that has chosen the device after the sweep, or that
   client's end; and the request can happen.
   */
  ghost predicate HeldOnly(q: Pump) {
    && (forall s :: Enabled(q, s) ==> q.life.held && q.life.late && (s.Say? || s.LetGo?))
    && (q.life.held ==> forall w: Wire :: !w.Sync? ==> Enabled(q, Say(w)))
  }

  lemma FreedIsHeld(q: Pump)
    requires Alive(q.life) && q.life.removal.Freed?
    ensures HeldOnly(q)
  {
    hide NoSync;
  }

  /**
   In every run: the device is kicked at most once; close and removal happen exactly once, when
   both threads are through; and once the object is freed no thread is left, no second removal is on
   its way, and the event loop has one way to it at most: a client that chose it after the sweep.
   */
  lemma {:induction false} LifetimeHolds(p: Pump, steps: seq<Step>, q: Pump)
    requires Alive(p.life) && Runs(p, steps, q)
    ensures Alive(q.life) && q.life.kicks <= 1
    ensures q.life.closes == Count(q.life.input.Finished? && q.life.output.Finished?)
    ensures q.life.closes == q.life.removals + Count(!q.life.removal.Waiting?)
    ensures q.life.closes == 1 ==> q.life.kicks == 1
    ensures q.life.removal.Freed? ==> HeldOnly(q)
    decreases |steps|
  {
    if steps != [] {
      StepAlive(p, steps[0]);
      LifetimeHolds(Apply(p, steps[0]), steps[1..], q);
    } else if q.life.removal.Freed? {
      FreedIsHeld(q);
    }
    hide Apply, HeldOnly, Enabled;
  }

  /** Every interleaving from the moment the threads start. */
  lemma EveryInterleaving(token: nat, steps: seq<Step>, q: Pump)
    requires Runs(Start(token), steps, q)
    ensures var f := q.flow;
            && f.taken <= |f.sent| && f.handed == Passed(f.sent[..f.taken], f.token)
            && (f.told ==> f.handed == Passed(f.sent, f.token))
            && (f.handed != [] ==> f.handed[0] == Cnxn("host::"))
    ensures q.life.kicks <= 1 && q.life.closes == Count(q.life.input.Finished? && q.life.output.Finished?)
    ensures q.life.removal.Freed? ==> HeldOnly(q)
  {
    hide Gated, Alive, Runs, Passed, HeldOnly;
    StartGated(token);
    GatingHolds(Start(token), steps, q);
    LifetimeHolds(Start(token), steps, q);
  }

  lemma {:induction false} RunsOn(p: Pump, steps: seq<Step>, q: Pump, s: Step)
    requires Runs(p, steps, q) && Enabled(q, s)
    ensures Runs(p, steps + [s], Apply(q, s))
    decreases |steps|
  {
    hide Enabled, Apply;
    if steps == [] {
      assert [s][1..] == [];
    } else {
      RunsOn(Apply(p, steps[0]), steps[1..], q, s);
      assert (steps + [s])[1..] == steps[1..] + [s];
    }
  }

  lemma Go(start: Pump, steps: seq<Step>, p: Pump, s: Step) returns (steps': seq<Step>, p': Pump)
    requires Runs(start, steps, p) && Enabled(p, s)
    ensures Runs(start, steps', p') && p' == Apply(p, s)
  {
    hide Enabled, Apply, Runs;
    RunsOn(start, steps, p, s);
    steps', p' := steps + [s], Apply(p, s);
  }

  /** The input thread leaves while the output thread is at work. */
  lemma InputLeaves(token: nat) returns (steps: seq<Step>, p: Pump)
    ensures Runs(Start(token), steps, p)
    ensures p.life == Life(Finished, Pumping, 1, true, 1, 0, 0, Waiting, true, true, true, false, false)
    ensures p.flow.up == [Sync(1, token + 1)]
  {
    var start := Start(token);
    assert Runs(start, [], start);
    hide Runs;
    steps, p := Go(start, [], start, Bump);
    steps, p := Go(start, steps, p, Announce(true));
    steps, p := Go(start, steps, p, TakeFails);
    steps, p := InputGoes(start, steps, p);
  }

  /** The five steps of its way out. */
  lemma InputGoes(start: Pump, steps: seq<Step>, p: Pump) returns (steps': seq<Step>, p': Pump)
    requires Runs(start, steps, p)
    requires p.life == Life(Sweeping, Pumping, 2, false, 0, 0, 0, Waiting, true, true, true, false, false)
    ensures Runs(start, steps', p') && p'.flow == p.flow
    ensures p'.life == Life(Finished, Pumping, 1, true, 1, 0, 0, Waiting, true, true, true, false, false)
  {
    hide Runs;
    steps', p' := Go(start, steps, p, Leave(Input));
    assert p' == Pump(p.flow, p.life.(input := Checking));
    steps', p' := Go(start, steps', p', Leave(Input));
    assert p' == Pump(p.flow, p.life.(input := Locking));
    steps', p' := Go(start, steps', p', Leave(Input));
    assert p' == Pump(p.flow, p.life.(input := Kicking, kicked := true));
    steps', p' := Go(start, steps', p', Leave(Input));
    assert p' == Pump(p.flow, p.life.(input := Dropping, kicked := true, kicks := 1));
    steps', p' := Go(start, steps', p', Leave(Input));
  }

  /** The device connects, and a client chooses it. */
  lemma LateChoice(token: nat) returns (steps: seq<Step>, p: Pump)
    ensures Runs(Start(token), steps, p)
    ensures p.life == Life(Finished, Pumping, 1, true, 1, 0, 0, Waiting, true, true, true, true, true)
  {
    hide Runs;
    var start := Start(token);
    steps, p := InputLeaves(token);
    steps, p := Go(start, steps, p, Forward(Cnxn("device::"), true));
    steps, p := Go(start, steps, p, Handle([]));
    steps, p := Go(start, steps, p, Handle([]));
    steps, p := Go(start, steps, p, Choose);
  }

  /**
   It happens: the input thread has left, the device connects, a client chooses it, the device goes
   and the object is freed, and the client's request still has its way to it.
   */
  lemma HeldPastFree(token: nat) returns (steps: seq<Step>, q: Pump)
    ensures Runs(Start(token), steps, q) && q.life.removal.Freed? && Enabled(q, Say(Open(1, 0, "shell:")))
  {
    hide Runs;
    var start := Start(token);
    steps, q := LateChoice(token);
    steps, q := Go(start, steps, q, Hangup(true));
    steps, q := Go(start, steps, q, Leave(Output));
    steps, q := Go(start, steps, q, Leave(Output));
    steps, q := Go(start, steps, q, Remove);
    steps, q := Go(start, steps, q, Remove);
    steps, q := Go(start, steps, q, Remove);
    steps, q := Go(start, steps, q, Remove);
  }
}
