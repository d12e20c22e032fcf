/** MIDI OUT of the USB controller: packet producers, the bounded queue, and the one task that owns
    the USB device and opens, drains, retries and tears it down. The steps interleave at every
    access to what the two sides share: the producer count, the accepting flag and the queue. */
module MidiOut {

  const QUEUE_DEPTH := 64
  /** 64 bytes per transfer, four per packet. */
  const MAX_PACKETS := 16

  /** A packet, named by the connection its sender was admitted in and its position in it. */
  datatype Item = Item(conn: nat, index: nat)

  /** flx4_midi_host_send_packet by the access performed next. */
  datatype Stage = Outside | Entered | Admitted(conn: nat) | Leaving

  /** What becomes of the packets of the current connection. `sent` were put into the queue, those
      in `done` were in transfers that completed. `next` is the position of the first packet that
      is neither completed nor given up. */
  datatype Flow = Flow(
    conn: nat, sent: nat, queue: seq<Item>, payload: seq<Item>, pending: bool,
    done: seq<Item>, next: nat, dropped: bool, lost: bool, skipped: bool, wiped: bool)

  datatype Host = Host(
    isOpen: bool, claimed: bool, closing: bool,
    outXfer: bool, outActive: bool, inXfer: bool, inActive: bool)

  /** The USB library's own view. `faults` counts what it must never be asked: to free or submit a
      transfer in flight, to lose one, to release an interface that still has transfers. */
  datatype Slot = Absent | Ready | Flying
  datatype Usb = Usb(outSlot: Slot, inSlot: Slot, faults: nat)

  datatype Pc = Loop | Filling | Submitting | CloseLoad | CloseReset | CloseRest | OpenRest

  datatype State = State(
    producers: seq<Stage>, count: nat, accepting: bool, live: bool, pc: Pc, flow: Flow, host: Host, usb: Usb)

  datatype Status = Completed | NoDevice | Failed

  datatype Opening = NoOpen | NoClaim | NoOutAlloc | NoInAlloc | NoInSubmit | Ok

  datatype Action =
    | Enter(i: nat) | Check(i: nat) | Send(i: nat, drop: bool) | Leave(i: nat)
    | DevGone | PumpOut | FillOne | FillStop | Submit(ok: bool)
    | OutDone(status: Status, freed: bool) | InDone(status: Status, freed: bool, resubmitted: bool) | PumpIn(ok: bool)
    | CloseStep(freedIn: bool, freedOut: bool, audioDone: bool, released: bool, closed: bool)
    | OpenStart | OpenStep(result: Opening)

  // ------------------------------------------------------------------ producers

  function Inside(ps: seq<Stage>): nat {
    if ps == [] then 0 else (if ps[0].Outside? then 0 else 1) + Inside(ps[1..])
  }

  function Produce(s: State, a: Action): State {
    match a
    case Enter(i) =>
      if i < |s.producers| && s.producers[i].Outside?
      then s.(producers := s.producers[i := Entered], count := s.count + 1) else s
    case Check(i) =>
      if i < |s.producers| && s.producers[i].Entered?
      then s.(producers := s.producers[i := if s.accepting then Admitted(s.flow.conn) else Leaving]) else s
    case Send(i, drop) =>
      if i < |s.producers| && s.producers[i].Admitted? then
        s.(producers := s.producers[i := Leaving],
           flow := if drop || |s.flow.queue| >= QUEUE_DEPTH then s.flow else Enqueue(s.flow, s.producers[i].conn))
      else s
    case Leave(i) =>
      if i < |s.producers| && s.producers[i].Leaving? && s.count > 0
      then s.(producers := s.producers[i := Outside], count := s.count - 1) else s
    case _ => s
  }

  function Enqueue(f: Flow, conn: nat): Flow {
    f.(queue := f.queue + [Item(conn, f.sent)], sent := f.sent + 1)
  }

  // ------------------------------------------------------------------ the USB owner

  /** The payload is given up: it will never be submitted again. */
  function Drop(f: Flow): Flow {
    f.(pending := false, payload := [], next := f.next + |f.payload|, dropped := f.dropped || f.payload != [])
  }

  function Complete(f: Flow): Flow {
    f.(pending := false, payload := [], next := f.next + |f.payload|, done := f.done + f.payload,
       skipped := f.skipped || f.dropped)
  }

  function FreeOut(u: Usb): Usb {
    u.(outSlot := Absent, faults := u.faults + if u.outSlot == Ready then 0 else 1)
  }

  function FreeIn(u: Usb): Usb {
    u.(inSlot := Absent, faults := u.faults + if u.inSlot == Ready then 0 else 1)
  }

  function SubmitOut(u: Usb, claimed: bool): Usb {
    u.(outSlot := Flying, faults := u.faults + if u.outSlot == Ready && claimed then 0 else 1)
  }

  function SubmitIn(u: Usb, claimed: bool): Usb {
    u.(inSlot := Flying, faults := u.faults + if u.inSlot == Ready && claimed then 0 else 1)
  }

  function Release(u: Usb): Usb {
    u.(faults := u.faults + if u.outSlot == Absent && u.inSlot == Absent then 0 else 1)
  }

  function AllocOut(u: Usb): Usb {
    u.(outSlot := Ready, faults := u.faults + if u.outSlot == Absent then 0 else 1)
  }

  function AllocIn(u: Usb): Usb {
    u.(inSlot := Ready, faults := u.faults + if u.inSlot == Absent then 0 else 1)
  }

  /** midi_out_submit_next, split at each queue access. */
  function Pump(s: State, a: Action): State {
    var f, h := s.flow, s.host;
    match a
    case PumpOut =>
      if s.pc != Loop || h.outActive || !h.outXfer || !h.isOpen || !h.claimed || h.closing then s
      else s.(pc := if f.pending then Submitting else Filling)
    case FillOne =>
      if s.pc == Filling && |f.payload| < MAX_PACKETS && f.queue != []
      then s.(flow := f.(payload := f.payload + [f.queue[0]], queue := f.queue[1..])) else s
    case FillStop =>
      if s.pc != Filling || (|f.payload| < MAX_PACKETS && f.queue != []) then s
      else if f.payload == [] then s.(pc := Loop)
      else s.(pc := Submitting, flow := f.(pending := true))
    case Submit(ok) =>
      if s.pc != Submitting then s
      else if !ok then s.(pc := Loop)
      else s.(pc := Loop, host := h.(outActive := true), usb := SubmitOut(s.usb, h.claimed))
    case _ => s
  }

  /** The OUT callback: the library has finished with the transfer, which stays allocated. */
  function OutCallback(s: State, status: Status, freed: bool): State {
    if s.pc != Loop || s.usb.outSlot != Flying then s
    else
      var h := s.host.(outActive := false);
      var u := s.usb.(outSlot := Ready);
      var gone := status == NoDevice || h.closing;
      var f := if status == Completed then Complete(s.flow) else if gone then Drop(s.flow) else s.flow;
      if !gone then s.(host := h, usb := u, flow := f)
      else if h.outXfer && freed then s.(host := h.(outXfer := false), usb := FreeOut(u), flow := f)
      else s.(host := h, usb := u, flow := f.(lost := f.lost || !h.closing))
  }

  function InCallback(s: State, status: Status, freed: bool, resubmitted: bool): State {
    if s.pc != Loop || s.usb.inSlot != Flying then s
    else
      var h := s.host.(inActive := false);
      var u := s.usb.(inSlot := Ready);
      if status == NoDevice || h.closing then
        if h.inXfer && freed then s.(host := h.(inXfer := false), usb := FreeIn(u)) else s.(host := h, usb := u)
      else if h.isOpen && h.claimed && resubmitted then s.(host := h.(inActive := true), usb := SubmitIn(u, h.claimed))
      else s.(host := h, usb := u)
  }

  function InPump(s: State, ok: bool): State {
    var h := s.host;
    if s.pc != Loop || !h.isOpen || !h.claimed || h.closing || !h.inXfer || h.inActive || !ok then s
    else s.(host := h.(inActive := true), usb := SubmitIn(s.usb, h.claimed))
  }

  /** close_device_step. */
  function Teardown(s: State, a: Action): State
    requires a.CloseStep?
  {
    match s.pc
    case Loop => if s.host.closing then s.(accepting := false, pc := CloseLoad) else s
    case CloseLoad => s.(pc := if s.count != 0 then Loop else CloseReset)
    case CloseReset => s.(flow := s.flow.(queue := [], wiped := true), pc := CloseRest)
    case CloseRest => FinishClose(FreeIdle(s, a.freedIn, a.freedOut), a.audioDone, a.released, a.closed)
    case _ => s
  }

  /** Frees the transfers that are not in flight. */
  function FreeIdle(s: State, freedIn: bool, freedOut: bool): State {
    var s1 := if s.host.inXfer && !s.host.inActive && freedIn
              then s.(host := s.host.(inXfer := false), usb := FreeIn(s.usb)) else s;
    if s1.host.outXfer && !s1.host.outActive && freedOut
    then s1.(host := s1.host.(outXfer := false), usb := FreeOut(s1.usb), flow := Drop(s1.flow)) else s1
  }

  function FinishClose(s: State, audioDone: bool, released: bool, closed: bool): State {
    var h := s.host;
    if h.inXfer || h.outXfer || h.inActive || h.outActive || !audioDone then s.(pc := Loop)
    else if h.claimed && !released then s.(pc := Loop)
    else
      var s1 := if h.claimed then s.(host := h.(claimed := false), usb := Release(s.usb)) else s;
      if h.isOpen && !closed then s1.(pc := Loop)
      else s1.(host := Host(false, false, false, false, false, false, false), flow := Drop(s1.flow), live := false, pc := Loop)
  }

  /** open_device, after its first store. A failure leaves what it got so far to the teardown. */
  function FinishOpen(s: State, result: Opening): State {
    var h := s.host;
    var u := s.usb;
    if result == NoOpen then s.(host := h.(closing := true), pc := Loop)
    else if result == NoClaim then s.(host := h.(isOpen := true, closing := true), pc := Loop)
    else
      var c := h.(isOpen := true, claimed := true);
      if result == NoOutAlloc then s.(host := c.(closing := true), pc := Loop)
      else
        var out := c.(outXfer := true, outActive := false);
        var f := s.flow.(pending := false);
        if result == NoInAlloc then s.(host := out.(closing := true), usb := AllocOut(u), flow := Drop(f), pc := Loop)
        else if result == NoInSubmit then
          s.(host := out.(inXfer := true, closing := true), usb := AllocIn(AllocOut(u)), flow := Drop(f), pc := Loop)
        else
          s.(host := out.(inXfer := true, inActive := true), usb := SubmitIn(AllocIn(AllocOut(u)), true),
             flow := Flow(s.flow.conn + 1, 0, s.flow.queue, [], false, [], 0, false, false, false, false),
             accepting := true, live := true, pc := Loop)
  }

  function Step(s: State, a: Action): State {
    match a
    case Enter(_) => Produce(s, a)
    case Check(_) => Produce(s, a)
    case Send(_, _) => Produce(s, a)
    case Leave(_) => Produce(s, a)
    case DevGone => if s.pc == Loop then s.(host := s.host.(closing := true), accepting := false) else s
    case OutDone(status, freed) => OutCallback(s, status, freed)
    case InDone(status, freed, resubmitted) => InCallback(s, status, freed, resubmitted)
    case PumpIn(ok) => InPump(s, ok)
    case CloseStep(_, _, _, _, _) => Teardown(s, a)
    case OpenStart =>
      if s.pc == Loop && !s.host.closing && !s.host.isOpen then s.(accepting := false, pc := OpenRest) else s
    case OpenStep(result) => if s.pc == OpenRest then FinishOpen(s, result) else s
    case _ => Pump(s, a)
  }

  const HOST0 := Host(false, false, false, false, false, false, false)
  const FLOW0 := Flow(0, 0, [], [], false, [], 0, false, false, false, false)

  function Start(n: nat): State {
    State(seq(n, _ => Outside), 0, false, false, Loop, FLOW0, HOST0, Usb(Absent, Absent, 0))
  }

  function Run(s: State, actions: seq<Action>): State
    decreases actions
  {
    if actions == [] then s else Run(Step(s, actions[0]), actions[1..])
  }

  // ------------------------------------------------------------------ the invariant

  function Range(conn: nat, from: nat, n: nat): (r: seq<Item>)
    ensures |r| == n
  {
    seq(n, i requires 0 <= i => Item(conn, from + i))
  }

  /** The completed packets are the first ones of their connection, in order. */
  predicate Prefix(f: Flow) { f.done == Range(f.conn, 0, |f.done|) }

  /** Payload and queue hold the packets that follow the settled ones, without a gap. */
  ghost predicate Waiting(conn: nat, payload: seq<Item>, queue: seq<Item>, next: nat, sent: nat, wiped: bool) {
    && payload + queue == Range(conn, next, |payload| + |queue|)
    && next + |payload| + |queue| <= sent
    && (!wiped ==> next + |payload| + |queue| == sent)
    && (wiped ==> queue == [])
  }

  ghost predicate Settled(conn: nat, done: seq<Item>, next: nat, dropped: bool, skipped: bool) {
    && (forall i :: 0 <= i < |done| ==> done[i].conn == conn)
    && (!dropped ==> !skipped && |done| == next)
    && (!skipped ==> done == Range(conn, 0, |done|) && |done| <= next)
    && (dropped && !skipped ==> |done| < next)
    && (skipped ==> done != Range(conn, 0, |done|))
  }

  /** Never twice and never out of order. */
  ghost predicate Ordered(done: seq<Item>, next: nat) {
    && (forall i :: 0 <= i < |done| ==> done[i].index < next)
    && (forall i, j :: 0 <= i < j < |done| ==> done[i].index < done[j].index)
  }

  ghost predicate FlowOk(f: Flow) {
    && Ordered(f.done, f.next)
    && Waiting(f.conn, f.payload, f.queue, f.next, f.sent, f.wiped)
    && Settled(f.conn, f.done, f.next, f.dropped, f.skipped)
    && (f.skipped ==> f.lost)
  }

  /** After a payload was given up, no other is submitted, unless it was lost. */
  ghost predicate PayloadOk(payload: seq<Item>, pending: bool, dropped: bool, lost: bool, h: Host, pc: Pc) {
    && (payload != [] ==> pending || pc == Filling)
    && (pending ==> payload != [] && pc != Filling)
    && (pc == Submitting ==> pending)
    && (h.outActive ==> pending && pc != Submitting)
    && (dropped && !lost ==> !h.outActive && (h.closing || !h.outXfer))
  }

  ghost predicate HostOk(h: Host, u: Usb, pc: Pc) {
    && u.faults == 0
    && h.outXfer == (u.outSlot != Absent) && h.outActive == (u.outSlot == Flying)
    && h.inXfer == (u.inSlot != Absent) && h.inActive == (u.inSlot == Flying)
    && (h.outXfer || h.inXfer ==> h.claimed)
    && (h.claimed ==> h.isOpen)
    && (pc == OpenRest ==> !h.isOpen && !h.closing)
    && (pc == CloseLoad || pc == CloseReset || pc == CloseRest ==> h.closing)
    && (pc == Filling || pc == Submitting ==> h.claimed && h.outXfer && !h.outActive && !h.closing)
  }

  ghost predicate NoneAdmitted(ps: seq<Stage>) {
    forall i :: 0 <= i < |ps| ==> !ps[i].Admitted?
  }

  ghost predicate GateOk(ps: seq<Stage>, count: nat, accepting: bool, live: bool, closing: bool, pc: Pc,
                         conn: nat, wiped: bool, queue: seq<Item>) {
    && count == Inside(ps)
    && (forall i :: 0 <= i < |ps| && ps[i].Admitted? ==> ps[i].conn == conn)
    && (closing || pc == OpenRest ==> !accepting)
    && (pc == CloseReset || pc == CloseRest || wiped || !live ==> !accepting && NoneAdmitted(ps))
    && (pc == CloseRest ==> wiped)
    && (!live ==> queue == [])
    && (live && !closing ==> !wiped)
    && (pc == OpenRest ==> !live)
  }

  ghost predicate Inv(s: State) {
    && FlowOk(s.flow)
    && PayloadOk(s.flow.payload, s.flow.pending, s.flow.dropped, s.flow.lost, s.host, s.pc)
    && HostOk(s.host, s.usb, s.pc)
    && GateOk(s.producers, s.count, s.accepting, s.live, s.host.closing, s.pc, s.flow.conn, s.flow.wiped, s.flow.queue)
    && (s.live && !s.host.closing ==> s.host.isOpen)
  }

  /** A state a run can be in. */
  type Live = s: State | Inv(s) ghost witness Rest()

  ghost function Rest(): (s: State)
    ensures Inv(s)
  {
    StartOk(0);
    Start(0)
  }

  // ------------------------------------------------------------------ every step keeps it

  lemma {:induction false} InsideUpdate(ps: seq<Stage>, i: nat, stage: Stage)
    requires i < |ps|
    ensures Inside(ps[i := stage]) + (if ps[i].Outside? then 0 else 1) == Inside(ps) + (if stage.Outside? then 0 else 1)
    decreases ps
  {
    var ps' := ps[i := stage];
    if i == 0 {
      assert ps'[1..] == ps[1..];
    } else {
      assert ps'[1..] == ps[1..][i - 1 := stage];
      InsideUpdate(ps[1..], i - 1, stage);
    }
  }

  lemma {:induction false} NobodyInside(ps: seq<Stage>)
    requires Inside(ps) == 0
    ensures NoneAdmitted(ps)
    decreases ps
  {
    if ps != [] {
      NobodyInside(ps[1..]);
      assert forall i :: 1 <= i < |ps| ==> ps[i] == ps[1..][i - 1];
    }
  }

  lemma EnqueueKeeps(f: Flow)
    requires FlowOk(f) && !f.wiped
    ensures FlowOk(Enqueue(f, f.conn))
  {
    hide Settled;
    var g := Enqueue(f, f.conn);
    assert g.payload + g.queue == (f.payload + f.queue) + [Item(f.conn, f.sent)];
    assert Range(f.conn, f.next, |g.payload| + |g.queue|) == Range(f.conn, f.next, |f.payload| + |f.queue|) + [Item(f.conn, f.sent)];
  }

  /** Settling the payload leaves the queue as it was. */
  lemma PayloadLeaves(conn: nat, payload: seq<Item>, queue: seq<Item>, next: nat, sent: nat, wiped: bool)
    requires Waiting(conn, payload, queue, next, sent, wiped)
    ensures Waiting(conn, [], queue, next + |payload|, sent, wiped)
    ensures payload == Range(conn, next, |payload|)
  {
    var all := Range(conn, next, |payload| + |queue|);
    assert payload == all[..|payload|] && queue == all[|payload|..];
    assert queue == Range(conn, next + |payload|, |queue|);
    assert [] + queue == queue;
  }

  lemma OrderedAppend(conn: nat, done: seq<Item>, next: nat, n: nat)
    requires Ordered(done, next)
    ensures Ordered(done + Range(conn, next, n), next + n)
  {
  }

  lemma RangeExtends(conn: nat, n: nat, k: nat)
    ensures Range(conn, 0, n) + Range(conn, n, k) == Range(conn, 0, n + k)
  {
  }

  /** A packet out of its place spoils the prefix, and so does anything after one. */
  lemma PrefixSpoiled(conn: nat, done: seq<Item>, next: nat, k: nat)
    requires k > 0 && (done != Range(conn, 0, |done|) || |done| != next)
    ensures done + Range(conn, next, k) != Range(conn, 0, |done| + k)
  {
    var more := done + Range(conn, next, k);
    if done == Range(conn, 0, |done|) {
      assert more[|done|] == Item(conn, next) && Range(conn, 0, |done| + k)[|done|] == Item(conn, |done|);
    } else {
      assert more[..|done|] == done && Range(conn, 0, |done| + k)[..|done|] == Range(conn, 0, |done|);
    }
  }

  lemma SettledCompletes(conn: nat, done: seq<Item>, next: nat, dropped: bool, skipped: bool, k: nat)
    requires Settled(conn, done, next, dropped, skipped) && k > 0
    ensures Settled(conn, done + Range(conn, next, k), next + k, dropped, skipped || dropped)
  {
    if dropped || skipped {
      PrefixSpoiled(conn, done, next, k);
    } else {
      RangeExtends(conn, next, k);
    }
    var more := done + Range(conn, next, k);
    assert forall i :: 0 <= i < |more| ==> more[i].conn == conn;
    hide Range;
  }

  lemma CompleteKeeps(f: Flow)
    requires FlowOk(f) && f.payload != [] && (f.dropped ==> f.lost)
    ensures FlowOk(Complete(f))
  {
    hide Waiting, Ordered, Settled, Range;
    PayloadLeaves(f.conn, f.payload, f.queue, f.next, f.sent, f.wiped);
    OrderedAppend(f.conn, f.done, f.next, |f.payload|);
    SettledCompletes(f.conn, f.done, f.next, f.dropped, f.skipped, |f.payload|);
  }

  lemma DropKeeps(f: Flow)
    requires FlowOk(f)
    ensures FlowOk(Drop(f))
  {
    hide Waiting, Range;
    PayloadLeaves(f.conn, f.payload, f.queue, f.next, f.sent, f.wiped);
  }

  lemma WipeKeeps(f: Flow)
    requires FlowOk(f)
    ensures FlowOk(f.(queue := [], wiped := true))
  {
    PayloadLeaves(f.conn, f.payload, f.queue, f.next, f.sent, f.wiped);
    assert f.payload + [] == f.payload;
    hide Settled, Range;
  }

  lemma FillKeeps(f: Flow)
    requires FlowOk(f) && f.queue != []
    ensures FlowOk(f.(payload := f.payload + [f.queue[0]], queue := f.queue[1..]))
  {
    hide Settled;
    assert f.payload + [f.queue[0]] + f.queue[1..] == f.payload + f.queue;
  }

  lemma LostKeeps(f: Flow, lost: bool)
    requires FlowOk(f) && (f.lost ==> lost)
    ensures FlowOk(f.(lost := lost))
  {
  }

  lemma PendingKeeps(f: Flow, pending: bool)
    requires FlowOk(f)
    ensures FlowOk(f.(pending := pending))
  {
  }

  lemma ProducerKeeps(s: Live, a: Action)
    requires a.Enter? || a.Check? || a.Send? || a.Leave?
    ensures Inv(Step(s, a))
  {
    hide HostOk, PayloadOk, FlowOk, Inside;
    var s' := Step(s, a);
    if a.i < |s.producers| && s'.producers != s.producers {
      InsideUpdate(s.producers, a.i, s'.producers[a.i]);
      if a.Send? {
        EnqueueKeeps(s.flow);
      }
    }
  }

  lemma PumpKeeps(s: Live, a: Action)
    requires a.PumpOut? || a.FillOne? || a.FillStop? || a.Submit?
    ensures Inv(Step(s, a))
  {
    hide FlowOk, Inside, NoneAdmitted;
    if a.FillOne? && s.flow.queue != [] { FillKeeps(s.flow); }
    if a.FillStop? { PendingKeeps(s.flow, true); }
  }

  lemma QuietKeeps(s: Live, a: Action)
    requires a.PumpIn? || a.DevGone? || a.OpenStart?
    ensures Inv(Step(s, a))
  {
    hide FlowOk, Inside, NoneAdmitted;
  }

  lemma OutFlowKeeps(s: Live, status: Status, freed: bool)
    requires s.pc == Loop && s.usb.outSlot == Flying
    ensures FlowOk(OutCallback(s, status, freed).flow)
  {
    hide FlowOk, GateOk;
    CompleteKeeps(s.flow);
    DropKeeps(s.flow);
    LostKeeps(Complete(s.flow), s.flow.lost || !s.host.closing);
    LostKeeps(Drop(s.flow), s.flow.lost || !s.host.closing);
    hide HostOk, PayloadOk;
  }

  lemma OutHostKeeps(s: State, status: Status, freed: bool)
    requires HostOk(s.host, s.usb, s.pc)
    ensures var s' := OutCallback(s, status, freed); HostOk(s'.host, s'.usb, s'.pc)
  {
    hide Complete, Drop;
  }

  lemma OutPayloadKeeps(s: Live, status: Status, freed: bool)
    ensures var s' := OutCallback(s, status, freed);
            PayloadOk(s'.flow.payload, s'.flow.pending, s'.flow.dropped, s'.flow.lost, s'.host, s'.pc)
  {
    hide FlowOk, GateOk;
  }

  lemma OutFrame(s: State, status: Status, freed: bool)
    ensures var s' := OutCallback(s, status, freed);
            && SameGate(s, s')
            && (s.pc != Loop || s.usb.outSlot != Flying ==> s' == s)
  {
  }

  /** Nothing the producers can see, and nothing of the queue, has changed. */
  ghost predicate SameGate(s: State, s': State) {
    && s'.producers == s.producers && s'.count == s.count && s'.accepting == s.accepting && s'.live == s.live
    && s'.pc == s.pc && s'.host.closing == s.host.closing && s'.host.isOpen == s.host.isOpen
    && s'.flow.conn == s.flow.conn && s'.flow.wiped == s.flow.wiped && s'.flow.queue == s.flow.queue
  }

  lemma OutKeeps(s: Live, a: Action)
    requires a.OutDone?
    ensures Inv(Step(s, a))
  {
    hide FlowOk, GateOk, HostOk, PayloadOk, OutCallback;
    OutFrame(s, a.status, a.freed);
    OutHostKeeps(s, a.status, a.freed);
    OutPayloadKeeps(s, a.status, a.freed);
    if s.pc == Loop && s.usb.outSlot == Flying {
      OutFlowKeeps(s, a.status, a.freed);
    }
  }

  lemma InFrame(s: State, status: Status, freed: bool, resubmitted: bool)
    requires HostOk(s.host, s.usb, s.pc)
    ensures var s' := InCallback(s, status, freed, resubmitted);
            SameGate(s, s') && s'.flow == s.flow && s'.host.outActive == s.host.outActive && s'.host.outXfer == s.host.outXfer
            && HostOk(s'.host, s'.usb, s'.pc)
  {
  }

  lemma InKeeps(s: Live, a: Action)
    requires a.InDone?
    ensures Inv(Step(s, a))
  {
    hide FlowOk, GateOk, HostOk, InCallback;
    InFrame(s, a.status, a.freed, a.resubmitted);
  }

  lemma TeardownKeeps(s: Live, a: Action)
    requires a.CloseStep? && s.pc != CloseRest
    ensures Inv(Step(s, a))
  {
    hide FlowOk, Inside;
    if s.pc == CloseLoad && s.count == 0 { NobodyInside(s.producers); }
    if s.pc == CloseReset { WipeKeeps(s.flow); }
  }

  lemma FreeKeeps(s: Live, freedIn: bool, freedOut: bool)
    requires s.host.closing && s.pc == CloseRest
    ensures Inv(FreeIdle(s, freedIn, freedOut))
  {
    hide FlowOk, GateOk;
    DropKeeps(s.flow);
  }

  lemma CloseKeeps(s: Live, audioDone: bool, released: bool, closed: bool)
    requires s.host.closing && s.pc == CloseRest
    ensures Inv(FinishClose(s, audioDone, released, closed))
  {
    assert s.flow.queue == [];
    hide FlowOk, Inside, NoneAdmitted;
    DropKeeps(s.flow);
  }

  lemma OpenFails(s: Live, result: Opening)
    requires s.pc == OpenRest && result != Ok
    ensures Inv(FinishOpen(s, result))
  {
    hide FlowOk, Inside, NoneAdmitted;
    PendingKeeps(s.flow, false);
    DropKeeps(s.flow.(pending := false));
  }

  lemma FreshFlow(conn: nat)
    ensures FlowOk(Flow(conn, 0, [], [], false, [], 0, false, false, false, false))
  {
    assert [] + [] == Range(conn, 0, 0);
  }

  lemma OpenedHost(h: Host, u: Usb, ps: seq<Stage>, conn: nat)
    requires HostOk(h, u, OpenRest) && NoneAdmitted(ps)
    ensures var out := h.(isOpen := true, claimed := true, outXfer := true, outActive := false, inXfer := true, inActive := true);
            && HostOk(out, SubmitIn(AllocIn(AllocOut(u)), true), Loop)
            && PayloadOk([], false, false, false, out, Loop)
            && GateOk(ps, Inside(ps), true, true, out.closing, Loop, conn, false, [])
  {
    hide Inside;
  }

  lemma OpenRestIsQuiet(s: Live)
    requires s.pc == OpenRest
    ensures s.flow.queue == [] && s.count == Inside(s.producers) && NoneAdmitted(s.producers)
  {
    hide FlowOk, HostOk, PayloadOk, Inside, NoneAdmitted;
  }

  lemma OpenSucceeds(s: Live)
    requires s.pc == OpenRest
    ensures Inv(FinishOpen(s, Ok))
  {
    hide FlowOk, HostOk, PayloadOk, GateOk, Inside, NoneAdmitted, SubmitIn, AllocIn, AllocOut;
    OpenRestIsQuiet(s);
    FreshFlow(s.flow.conn + 1);
    OpenedHost(s.host, s.usb, s.producers, s.flow.conn + 1);
  }

  lemma OpenKeeps(s: Live, a: Action)
    requires a.OpenStep?
    ensures Inv(Step(s, a))
  {
    hide FlowOk, GateOk, PayloadOk, HostOk, FinishOpen;
    if s.pc == OpenRest {
      if a.result == Ok { OpenSucceeds(s); } else { OpenFails(s, a.result); }
    }
  }

  lemma RestKeeps(s: Live, a: Action)
    requires a.CloseStep? && s.pc == CloseRest
    ensures Inv(Step(s, a))
  {
    FreeKeeps(s, a.freedIn, a.freedOut);
    CloseKeeps(FreeIdle(s, a.freedIn, a.freedOut), a.audioDone, a.released, a.closed);
    hide Inv, FinishClose;
  }

  lemma StepKeeps(s: Live, a: Action)
    ensures Inv(Step(s, a))
  {
    hide Inv, Step;
    match a
    case Enter(_) => ProducerKeeps(s, a);
    case Check(_) => ProducerKeeps(s, a);
    case Send(_, _) => ProducerKeeps(s, a);
    case Leave(_) => ProducerKeeps(s, a);
    case OutDone(_, _) => OutKeeps(s, a);
    case InDone(_, _, _) => InKeeps(s, a);
    case CloseStep(_, _, _, _, _) => if s.pc == CloseRest { RestKeeps(s, a); } else { TeardownKeeps(s, a); }
    case OpenStep(_) => OpenKeeps(s, a);
    case PumpIn(_) => QuietKeeps(s, a);
    case DevGone => QuietKeeps(s, a);
    case OpenStart => QuietKeeps(s, a);
    case _ => PumpKeeps(s, a);
  }

  // ------------------------------------------------------------------ every run

  lemma {:induction false} StartOk(n: nat)
    ensures Inv(Start(n))
    decreases n
  {
    NobodyYet(seq(n, _ => Outside));
  }

  lemma {:induction false} NobodyYet(ps: seq<Stage>)
    requires forall i :: 0 <= i < |ps| ==> ps[i] == Outside
    ensures Inside(ps) == 0
    decreases ps
  {
    if ps != [] { NobodyYet(ps[1..]); }
  }

  lemma {:induction false} RunKeeps(s: Live, actions: seq<Action>)
    ensures Inv(Run(s, actions))
    decreases actions
  {
    hide Inv, Step;
    if actions != [] {
      StepKeeps(s, actions[0]);
      RunKeeps(Step(s, actions[0]), actions[1..]);
    }
  }

  /** In every run: the library is never asked to free or submit a transfer in flight, to lose one,
      or to release the interface under one. No packet of an earlier connection completes in a
      later one, none completes twice or out of order. The completed packets are the first ones of their connection in order, exactly
      until a transfer completes after a payload was given up; and that takes a free that failed
      on a NO_DEVICE completion before the device was seen to go. */
  lemma {:induction false} EveryRunIsSafe(n: nat, actions: seq<Action>)
    ensures var s := Run(Start(n), actions);
            && s.usb.faults == 0
            && (forall i :: 0 <= i < |s.flow.done| ==> s.flow.done[i].conn == s.flow.conn)
            && (forall i, j :: 0 <= i < j < |s.flow.done| ==> s.flow.done[i].index < s.flow.done[j].index)
            && (Prefix(s.flow) <==> !s.flow.skipped)
            && (s.flow.skipped ==> s.flow.lost)
  {
    StartOk(n);
    RunKeeps(Start(n), actions);
    hide Run, Start, GateOk, PayloadOk;
  }

  // ------------------------------------------------------------------ the one way to skip packets

  const SEND_ONE := [Enter(0), Check(0), Send(0, false), Leave(0)] + [PumpOut, FillOne, FillStop, Submit(true)]

  /** A connected controller with nothing under way and one producer. */
  predicate AtRest(s: State) {
    && s.producers == [Outside] && s.count == 0 && s.accepting && s.pc == Loop
    && s.host.isOpen && s.host.claimed && !s.host.closing && s.host.outXfer && !s.host.outActive
    && s.usb.outSlot == Ready
    && s.flow.queue == [] && s.flow.payload == [] && !s.flow.pending
  }

  lemma {:induction false} RunConcat(s: State, a: seq<Action>, b: seq<Action>)
    ensures Run(s, a + b) == Run(Run(s, a), b)
    decreases a
  {
    hide Step;
    if a == [] {
      assert a + b == b;
    } else {
      assert (a + b)[1..] == a[1..] + b;
      RunConcat(Step(s, a[0]), a[1..], b);
    }
  }

  lemma Run1(s: State, a: Action)
    ensures Run(s, [a]) == Step(s, a)
  {
    assert [a][1..] == [];
  }

  lemma Run2(s: State, a: Action, b: Action)
    ensures Run(s, [a, b]) == Step(Step(s, a), b)
  {
    hide Step;
    assert [a, b] == [a] + [b];
    RunConcat(s, [a], [b]);
    Run1(s, a);
    Run1(Step(s, a), b);
  }

  lemma Run4(s: State, a: Action, b: Action, c: Action, d: Action)
    ensures Run(s, [a, b, c, d]) == Step(Step(Step(Step(s, a), b), c), d)
  {
    hide Step;
    assert [a, b, c, d] == [a, b] + [c, d];
    RunConcat(s, [a, b], [c, d]);
    Run2(s, a, b);
    Run2(Step(Step(s, a), b), c, d);
  }

  /** The state with one more packet in the queue. */
  function Queued(s: State): State {
    s.(flow := s.flow.(queue := [Item(s.flow.conn, s.flow.sent)], sent := s.flow.sent + 1))
  }

  lemma PacketQueues(s: State)
    requires AtRest(s)
    ensures Step(Step(Step(Step(s, Enter(0)), Check(0)), Send(0, false)), Leave(0)) == Queued(s)
  {
    hide Run;
    var s1 := Step(s, Enter(0));
    assert s1 == s.(producers := [Entered], count := 1);
    var s2 := Step(s1, Check(0));
    assert s2 == s.(producers := [Admitted(s.flow.conn)], count := 1);
    var s3 := Step(s2, Send(0, false));
    assert [] + [Item(s.flow.conn, s.flow.sent)] == [Item(s.flow.conn, s.flow.sent)];
    assert s3 == Queued(s).(producers := [Leaving], count := 1);
  }

  lemma PacketFills(s: State)
    requires AtRest(s)
    ensures Step(Step(Step(Queued(s), PumpOut), FillOne), FillStop) ==
            s.(pc := Submitting, flow := s.flow.(payload := [Item(s.flow.conn, s.flow.sent)], sent := s.flow.sent + 1, pending := true))
  {
    hide Run;
    var item := Item(s.flow.conn, s.flow.sent);
    var q := Queued(s);
    var q1 := Step(q, PumpOut);
    assert q1 == q.(pc := Filling);
    var q2 := Step(q1, FillOne);
    assert q.flow.queue[1..] == [] && q.flow.payload + [item] == [item];
    assert q2 == q1.(flow := q1.flow.(payload := [item], queue := []));
  }

  lemma {:induction false} OnePacketFlies(s: State)
    requires AtRest(s)
    ensures Run(s, SEND_ONE) == s.(
              flow := s.flow.(sent := s.flow.sent + 1, payload := [Item(s.flow.conn, s.flow.sent)], pending := true),
              host := s.host.(outActive := true), usb := s.usb.(outSlot := Flying))
  {
    hide Step, Run;
    PacketQueues(s);
    PacketFills(s);
    SubmitFlies(Step(Step(Step(Queued(s), PumpOut), FillOne), FillStop));
    Run4(s, Enter(0), Check(0), Send(0, false), Leave(0));
    Run4(Queued(s), PumpOut, FillOne, FillStop, Submit(true));
    RunConcat(s, [Enter(0), Check(0), Send(0, false), Leave(0)], [PumpOut, FillOne, FillStop, Submit(true)]);
  }

  lemma SubmitFlies(s: State)
    requires s.pc == Submitting && s.usb.outSlot == Ready && s.host.claimed
    ensures Step(s, Submit(true)) == s.(pc := Loop, host := s.host.(outActive := true), usb := s.usb.(outSlot := Flying))
  {
  }

  lemma Connects()
    ensures var s := Step(Step(Start(1), OpenStart), OpenStep(Ok));
            AtRest(s) && s.flow == Flow(1, 0, [], [], false, [], 0, false, false, false, false)
  {
    hide Run;
    assert seq(1, _ => Outside) == [Outside];
  }

  const TO_THE_GAP := [OpenStart, OpenStep(Ok)] + SEND_ONE + [OutDone(NoDevice, false)]

  lemma ReachesTheGap()
    ensures var s := Run(Start(1), TO_THE_GAP);
            AtRest(s) && s.flow == Flow(1, 1, [], [], false, [], 1, true, true, false, false)
  {
    hide Run;
    Connects();
    Run2(Start(1), OpenStart, OpenStep(Ok));
    var s0 := Run(Start(1), [OpenStart, OpenStep(Ok)]);
    OnePacketFlies(s0);
    Run1(Run(s0, SEND_ONE), OutDone(NoDevice, false));
    RunConcat(Start(1), [OpenStart, OpenStep(Ok)], SEND_ONE);
    RunConcat(Start(1), [OpenStart, OpenStep(Ok)] + SEND_ONE, [OutDone(NoDevice, false)]);
  }

  /** A run whose only completed packet is the second one sent: the first was given up on a
      NO_DEVICE completion, its transfer could not be freed, and the pump used it again. */
  lemma {:induction false} PacketsCanBeSkipped()
    ensures exists actions :: Run(Start(1), actions).flow.done == [Item(1, 1)] && !Prefix(Run(Start(1), actions).flow)
  {
    hide Run;
    ReachesTheGap();
    var s2 := Run(Start(1), TO_THE_GAP);
    OnePacketFlies(s2);
    Run1(Run(s2, SEND_ONE), OutDone(Completed, false));
    RunConcat(Start(1), TO_THE_GAP, SEND_ONE);
    RunConcat(Start(1), TO_THE_GAP + SEND_ONE, [OutDone(Completed, false)]);
    var actions := TO_THE_GAP + SEND_ONE + [OutDone(Completed, false)];
    assert [] + [Item(1, 1)] == [Item(1, 1)];
    assert Run(Start(1), actions).flow.done == [Item(1, 1)];
    assert Range(1, 0, 1)[0] == Item(1, 0);
  }

  // ------------------------------------------------------------------ what becomes of a packet

  /** Which step lets a packet in or turns it away, moves it on, delivers it or gives it up. */
  ghost predicate Fair(s: State, a: Action, t: State) {
    var f, g := s.flow, t.flow;
    && |t.producers| == |s.producers|
    // A producer is admitted exactly if it finds the flag set.
    && (a.Check? && a.i < |s.producers| && s.producers[a.i].Entered? ==>
          t.producers[a.i] == if s.accepting then Admitted(f.conn) else Leaving)
    // Its packet joins the queue, unless that is full or the reserve is kept for others.
    && (a.Send? && a.i < |s.producers| && s.producers[a.i].Admitted? && !a.drop && |f.queue| < QUEUE_DEPTH ==>
          g.queue == f.queue + [Item(f.conn, f.sent)] && g.sent == f.sent + 1)
    // Only the fill takes packets out of the queue, for the payload, and the teardown, which drops all.
    && (|g.queue| < |f.queue| ==>
          || (a.FillOne? && g.payload + g.queue == f.payload + f.queue)
          || (a.CloseStep? && s.host.closing && g.queue == []))
    // A payload leaves by completing, or is given up when the device or the connection goes.
    && (f.payload != [] && g.payload == [] ==>
          || (a.OutDone? && a.status == Completed && g.done == f.done + f.payload)
          || (g.done == f.done && (a.CloseStep? || (a.OutDone? && (a.status == NoDevice || s.host.closing))))
          || a.OpenStep?)
    && (g.done != f.done ==> a.OutDone? || a.OpenStep?)
  }

  lemma ProducerIsFair(s: Live, a: Action)
    requires a.Enter? || a.Check? || a.Send? || a.Leave?
    ensures Fair(s, a, Step(s, a))
  {
    hide FlowOk, HostOk, PayloadOk, Inside;
  }

  lemma PumpIsFair(s: State, a: Action)
    requires a.PumpOut? || a.FillOne? || a.FillStop? || a.Submit?
    ensures Fair(s, a, Step(s, a))
  {
    var t := Pump(s, a);
    assert t.producers == s.producers && t.flow.done == s.flow.done;
    if a.FillOne? {
      FillMoves(s);
    } else {
      assert t.flow.queue == s.flow.queue && t.flow.payload == s.flow.payload by { hide SubmitOut; }
    }
    hide Pump;
  }

  lemma FillMoves(s: State)
    ensures var t := Pump(s, FillOne);
            t.flow.payload + t.flow.queue == s.flow.payload + s.flow.queue && |t.flow.payload| >= |s.flow.payload|
  {
    var f := s.flow;
    if f.queue != [] { assert (f.payload + [f.queue[0]]) + f.queue[1..] == f.payload + f.queue; }
  }

  predicate SameParts(f: Flow, g: Flow) { f.queue == g.queue && f.payload == g.payload && f.done == g.done }

  lemma OutOutcome(s: State, status: Status, freed: bool)
    ensures var f, t := s.flow, OutCallback(s, status, freed);
            SameParts(t.flow, if s.pc != Loop || s.usb.outSlot != Flying then f
                              else if status == Completed then Complete(f)
                              else if status == NoDevice || s.host.closing then Drop(f) else f)
  {
    hide FreeOut, Complete, Drop;
  }

  lemma OutIsFair(s: State, a: Action)
    requires a.OutDone?
    ensures Fair(s, a, Step(s, a))
  {
    hide OutCallback;
    OutOutcome(s, a.status, a.freed);
    OutFrame(s, a.status, a.freed);
  }

  lemma OthersAreFair(s: State, a: Action)
    requires a.DevGone? || a.InDone? || a.PumpIn? || a.OpenStart?
    ensures Fair(s, a, Step(s, a))
  {
    hide SubmitIn, FreeIn;
  }

  lemma RestOutcome(s: State, freedIn: bool, freedOut: bool, audioDone: bool, released: bool, closed: bool)
    ensures var t := FinishClose(FreeIdle(s, freedIn, freedOut), audioDone, released, closed);
            && t.producers == s.producers && t.flow.queue == s.flow.queue && t.flow.done == s.flow.done
            && (t.flow.payload == s.flow.payload || t.flow.payload == [])
  {
    hide FreeIn, FreeOut, Release;
  }

  lemma CloseOutcome(s: State, a: Action)
    requires a.CloseStep? && (s.pc == CloseReset ==> s.host.closing)
    ensures var t := Teardown(s, a);
            && t.producers == s.producers && t.flow.done == s.flow.done
            && (t.flow.payload == s.flow.payload || t.flow.payload == [])
            && (t.flow.queue == s.flow.queue || (t.flow.queue == [] && s.host.closing))
  {
    RestOutcome(s, a.freedIn, a.freedOut, a.audioDone, a.released, a.closed);
    hide FreeIdle, FinishClose;
  }

  lemma CloseIsFair(s: Live, a: Action)
    requires a.CloseStep?
    ensures Fair(s, a, Step(s, a))
  {
    assert s.pc == CloseReset ==> s.host.closing;
    hide Inv, Teardown;
    CloseOutcome(s, a);
  }

  lemma OpenIsFair(s: Live, a: Action)
    requires a.OpenStep?
    ensures Fair(s, a, Step(s, a))
  {
    hide Inv, AllocIn, AllocOut, SubmitIn;
  }

  /** In every run every packet is treated so. */
  lemma {:induction false} EveryPacketIsTreatedFairly(n: nat, actions: seq<Action>, a: Action)
    ensures var s := Run(Start(n), actions); Fair(s, a, Step(s, a))
  {
    StartOk(n);
    RunKeeps(Start(n), actions);
    var s := Run(Start(n), actions);
    hide Inv, Fair, Step, Run, Start;
    match a
    case Enter(_) => ProducerIsFair(s, a);
    case Check(_) => ProducerIsFair(s, a);
    case Send(_, _) => ProducerIsFair(s, a);
    case Leave(_) => ProducerIsFair(s, a);
    case PumpOut => PumpIsFair(s, a);
    case FillOne => PumpIsFair(s, a);
    case FillStop => PumpIsFair(s, a);
    case Submit(_) => PumpIsFair(s, a);
    case OutDone(_, _) => OutIsFair(s, a);
    case CloseStep(_, _, _, _, _) => CloseIsFair(s, a);
    case OpenStep(_) => OpenIsFair(s, a);
    case _ => OthersAreFair(s, a);
  }

  // ------------------------------------------------------------------ the queue drains

  /** A connected controller with no transfer under way. */
  predicate Connected(s: State) {
    && s.pc == Loop && s.host.isOpen && s.host.claimed && !s.host.closing && s.host.outXfer && !s.host.outActive
    && s.usb.outSlot == Ready && !s.flow.pending && s.flow.payload == []
  }

  function Fills(k: nat): seq<Action> { seq(k, _ => FillOne) }

  /** One pass of the pump in which nothing fails, and the completion of its transfer. */
  const ROUND := [PumpOut] + Fills(MAX_PACKETS) + [FillStop, Submit(true), OutDone(Completed, false)]

  function Least(a: nat, b: nat): nat { if a <= b then a else b }

  /** The state with m packets moved from the queue to the payload. */
  function Filled(s: State, m: nat): State
    requires m <= |s.flow.queue|
  {
    s.(flow := s.flow.(payload := s.flow.payload + s.flow.queue[..m], queue := s.flow.queue[m..]))
  }

  lemma OneFill(s: State)
    requires s.pc == Filling && |s.flow.payload| < MAX_PACKETS
    ensures Step(s, FillOne) == Filled(s, Least(1, |s.flow.queue|))
  {
    var f := s.flow;
    if f.queue == [] {
      assert f.payload + f.queue[..0] == f.payload && f.queue[0..] == f.queue;
    } else {
      assert f.queue[..1] == [f.queue[0]];
    }
  }

  lemma FilledAgain(s: State, i: nat, j: nat)
    requires i + j <= |s.flow.queue|
    ensures Filled(Filled(s, i), j) == Filled(s, i + j)
  {
    var f := s.flow;
    assert f.queue[i..][..j] == f.queue[i..i + j] && f.queue[i..][j..] == f.queue[i + j..];
    assert f.queue[..i] + f.queue[i..i + j] == f.queue[..i + j];
    assert (f.payload + f.queue[..i]) + f.queue[i..i + j] == f.payload + (f.queue[..i] + f.queue[i..i + j]);
  }

  lemma FilledParts(s: State, m: nat)
    requires m <= |s.flow.queue|
    ensures var t := Filled(s, m);
            t.pc == s.pc && |t.flow.payload| == |s.flow.payload| + m && |t.flow.queue| == |s.flow.queue| - m
    ensures Filled(s, 0) == s
  {
    assert s.flow.payload + s.flow.queue[..0] == s.flow.payload && s.flow.queue[0..] == s.flow.queue;
  }

  lemma FillsFirst(s: State, k: nat)
    ensures Run(s, Fills(0)) == s
    ensures k > 0 ==> Run(s, Fills(k)) == Run(Step(s, FillOne), Fills(k - 1))
  {
    hide Step;
    if k > 0 { assert Fills(k)[1..] == Fills(k - 1); }
  }

  lemma {:induction false} FillsUpTo(s: State, k: nat)
    requires s.pc == Filling && |s.flow.payload| + k <= MAX_PACKETS
    ensures Run(s, Fills(k)) == Filled(s, Least(k, |s.flow.queue|))
    decreases k
  {
    hide Step, Run, Fills, Filled;
    FillsFirst(s, k);
    FilledParts(s, 0);
    if k > 0 {
      var i := Least(1, |s.flow.queue|);
      OneFill(s);
      FilledParts(s, i);
      FillsUpTo(Filled(s, i), k - 1);
      FilledAgain(s, i, Least(k - 1, |s.flow.queue| - i));
    }
  }

  /** The state after m more packets have been delivered. */
  function Delivered(s: State, m: nat): State
    requires m <= |s.flow.queue|
  {
    s.(flow := s.flow.(queue := s.flow.queue[m..], done := s.flow.done + s.flow.queue[..m], next := s.flow.next + m,
                       skipped := s.flow.skipped || (m > 0 && s.flow.dropped)))
  }

  /** A filled payload flies, completes, and joins the delivered packets. */
  lemma SendsFilled(s: State)
    requires s.pc == Filling && (|s.flow.payload| == MAX_PACKETS || s.flow.queue == []) && s.flow.payload != []
    requires s.usb.outSlot == Ready && s.host.claimed && !s.host.closing && !s.host.outActive && !s.flow.pending
    ensures Step(Step(Step(s, FillStop), Submit(true)), OutDone(Completed, false))
         == s.(pc := Loop, flow := Complete(s.flow))
  {
    var s1 := Step(s, FillStop);
    assert s1 == s.(pc := Submitting, flow := s.flow.(pending := true));
    SubmitFlies(s1);
    hide Run, Complete, Drop;
    assert Complete(s1.flow) == Complete(s.flow) by { SameWhenPending(s.flow); }
  }

  lemma SameWhenPending(f: Flow)
    ensures Complete(f.(pending := true)) == Complete(f)
  {
  }

  lemma SendsNothing(s: State)
    requires s.pc == Filling && s.flow.payload == [] && s.flow.queue == [] && s.usb.outSlot == Ready
    ensures Step(Step(Step(s, FillStop), Submit(true)), OutDone(Completed, false)) == s.(pc := Loop)
  {
  }

  lemma CompletesFilled(s: State, m: nat)
    requires Connected(s) && m == Least(MAX_PACKETS, |s.flow.queue|)
    ensures Filled(s.(pc := Filling), m).(pc := Loop, flow := Complete(Filled(s, m).flow)) == Delivered(s, m) || m == 0
    ensures m == 0 ==> Filled(s, 0) == s == Delivered(s, 0)
  {
    var f := s.flow;
    assert [] + f.queue[..m] == f.queue[..m];
    assert f.queue[0..] == f.queue && f.done + f.queue[..0] == f.done && f.payload + f.queue[..0] == f.payload;
  }

  lemma Run3(s: State, a: Action, b: Action, c: Action)
    ensures Run(s, [a, b, c]) == Step(Step(Step(s, a), b), c)
  {
    hide Step;
    assert [a, b, c] == [a] + [b, c];
    RunConcat(s, [a], [b, c]);
    Run1(s, a);
    Run2(Step(s, a), b, c);
  }

  lemma RoundDelivers(s: State)
    requires Connected(s)
    ensures Run(s, ROUND) == Delivered(s, Least(MAX_PACKETS, |s.flow.queue|))
  {
    var m := Least(MAX_PACKETS, |s.flow.queue|);
    var t := s.(pc := Filling);
    assert Step(s, PumpOut) == t;
    hide Step, Run;
    FillsUpTo(t, MAX_PACKETS);
    CompletesFilled(s, m);
    if m == 0 { SendsNothing(Filled(t, m)); } else { SendsFilled(Filled(t, m)); }
    Run1(s, PumpOut);
    Run3(Filled(t, m), FillStop, Submit(true), OutDone(Completed, false));
    RunConcat(s, [PumpOut], Fills(MAX_PACKETS));
    RunConcat(s, [PumpOut] + Fills(MAX_PACKETS), [FillStop, Submit(true), OutDone(Completed, false)]);
    hide Complete;
  }

  function Rounds(n: nat): seq<Action> { if n == 0 then [] else ROUND + Rounds(n - 1) }

  /** With nothing failing, enough passes deliver the whole queue, in order, and nothing else. */
  lemma {:induction false} QueueDrains(s: State, n: nat)
    requires Connected(s) && |s.flow.queue| <= n * MAX_PACKETS
    ensures var t := Run(s, Rounds(n)); Connected(t) && t.flow.queue == [] && t.flow.done == s.flow.done + s.flow.queue
    decreases n
  {
    hide Step, Run;
    if n == 0 {
      RunNothing(s);
    } else {
      var m := Least(MAX_PACKETS, |s.flow.queue|);
      RoundDelivers(s);
      RunConcat(s, ROUND, Rounds(n - 1));
      QueueDrains(Delivered(s, m), n - 1);
      assert (s.flow.done + s.flow.queue[..m]) + s.flow.queue[m..] == s.flow.done + s.flow.queue;
    }
  }

  lemma RunNothing(s: State)
    ensures Run(s, []) == s
  {
  }
}
