/** Held controls (jog touch, shift, censor, momentary pads): the last physical level of each is kept
    until the other board has been sent it. */
module HeldStates {
  import opened Wrappers
  import opened Words

  const COUNT := 54
  const SIMPLE := 6
  const PADS := 24

  const DECK1_JOG_TOUCH: byte := 0x14
  const DECK2_JOG_TOUCH: byte := 0x34
  const DECK1_SHIFT: byte := 0x16
  const DECK2_SHIFT: byte := 0x36
  const DECK1_PAD: byte := 0x25
  const DECK2_PAD: byte := 0x45
  const DECK1_EXT: byte := 0x2C
  const DECK2_EXT: byte := 0x4C

  /** The slot of a held control, or none for controls whose presses must not be collapsed. */
  function Key(id: byte, value: i16): (key: Option<nat>)
    ensures key.Some? ==> key.value < COUNT
  {
    if id == DECK1_JOG_TOUCH then Some(0)
    else if id == DECK2_JOG_TOUCH then Some(1)
    else if id == DECK1_SHIFT then Some(2)
    else if id == DECK2_SHIFT then Some(3)
    else if id == DECK1_EXT then (if value % 128 == 0 then Some(4) else None)
    else if id == DECK2_EXT then (if value % 128 == 0 then Some(5) else None)
    else if id == DECK1_PAD then PadKey(0, value / 8 % 8, value % 8, value / 64 % 2 == 1)
    else if id == DECK2_PAD then PadKey(PADS, value / 8 % 8, value % 8, value / 64 % 2 == 1)
    else None
  }

  /** Pad FX 1, pad FX 2 and shifted beat loop pads are held; the others are commands. */
  function PadKey(deck: nat, mode: nat, pad: nat, shifted: bool): (key: Option<nat>)
    requires deck <= PADS && pad < 8
    ensures key.Some? ==> key.value < COUNT
  {
    if mode == 5 then Some(SIMPLE + deck + pad)
    else if mode == 6 then Some(SIMPLE + deck + 8 + pad)
    else if mode == 1 && shifted then Some(SIMPLE + deck + 16 + pad)
    else None
  }

  /** The value that releases a control: the pressed bit cleared, everything that names it kept. */
  function Released(id: byte, value: i16): i16 {
    if id == DECK1_EXT || id == DECK2_EXT then value % 128
    else if id == DECK1_PAD || id == DECK2_PAD then value - value / 128 % 2 * 128
    else 0
  }

  /** Pad, mode and shift lie in the seven low bits. */
  lemma LowBits(high: int, low: nat)
    requires low < 128
    ensures (128 * high + low) % 8 == low % 8
    ensures (128 * high + low) / 8 % 8 == low / 8 % 8
    ensures (128 * high + low) / 64 % 2 == low / 64 % 2
  {
    ModIs(128 * high + low, 16 * high + low / 8, low % 8, 8);
    ModIs(16 * high + low / 8, 2 * high + low / 8 / 8, low / 8 % 8, 8);
    ModIs(128 * high + low, 2 * high + low / 64, low % 64, 64);
    ModIs(2 * high + low / 64, high, low / 64, 2);
  }

  lemma PressedBitIsApart(value: i16)
    ensures var w := value - value / 128 % 2 * 128;
            w % 8 == value % 8 && w / 8 % 8 == value / 8 % 8 && w / 64 % 2 == value / 64 % 2
  {
    var high, low := value / 128, value % 128;
    LowBits(high, low);
    LowBits(high - high % 2, low);
    assert value == 128 * high + low;
    assert value - high % 2 * 128 == 128 * (high - high % 2) + low;
  }

  lemma {:induction false} ReleaseKeepsKey(id: byte, value: i16)
    requires Key(id, value).Some?
    ensures Key(id, Released(id, value)) == Key(id, value)
  {
    hide PadKey;
    if id == DECK1_PAD || id == DECK2_PAD {
      PressedBitIsApart(value);
      assert Key(id, Released(id, value)) == Key(id, value);
    } else if id == DECK1_EXT || id == DECK2_EXT {
      assert value % 128 == 0;
      assert Released(id, value) == 0;
    } else {
      assert Released(id, value) == 0;
    }
  }

  /** The control is held down: the pressed bit of a pad or an extra key, any value of another. */
  predicate Pressed(id: byte, value: i16) {
    if id == DECK1_EXT || id == DECK2_EXT || id == DECK1_PAD || id == DECK2_PAD then value / 128 % 2 == 1 else value != 0
  }

  /** A released control is not pressed, a pad or an extra key keeps its seven low bits, and releasing
      again changes nothing. */
  lemma ReleaseIsExact(id: byte, value: i16)
    ensures var w := Released(id, value);
            && !Pressed(id, w) && Released(id, w) == w
            && (id == DECK1_EXT || id == DECK2_EXT || id == DECK1_PAD || id == DECK2_PAD ==> w % 128 == value % 128)
            && ((id == DECK1_PAD || id == DECK2_PAD) && !Pressed(id, value) ==> w == value)
  {
    if id == DECK1_PAD || id == DECK2_PAD {
      var high, low := Decompose(value, 128);
      var even := high - high % 2;
      ModIs(128 * even + low, even, low, 128);
      ModIs(even, high / 2, 0, 2);
      assert Released(id, value) == 128 * even + low;
    }
  }

  datatype Slot = Slot(observed: bool, scheduledValid: bool, dirty: bool, id: byte, desired: i16, scheduled: i16)

  const SLOT0 := Slot(false, false, false, 0, 0, 0)

  function Refreshed(slot: Slot): Slot {
    slot.(dirty := !slot.scheduledValid || slot.scheduled != slot.desired)
  }

  function Observe(slots: seq<Slot>, id: byte, value: i16): (r: seq<Slot>)
    requires |slots| == COUNT
    ensures |r| == COUNT
  {
    var key := Key(id, value);
    if key.None? then slots
    else slots[key.value := Refreshed(slots[key.value].(observed := true, id := id, desired := value))]
  }

  function ReleaseSlot(slot: Slot): Slot {
    if slot.observed then Refreshed(slot.(desired := Released(slot.id, slot.desired))) else slot
  }

  function ReleaseAll(slots: seq<Slot>): (r: seq<Slot>)
    requires |slots| == COUNT
    ensures |r| == COUNT
  {
    seq(COUNT, i requires 0 <= i < COUNT => ReleaseSlot(slots[i]))
  }

  function Mark(slots: seq<Slot>, key: nat, value: i16): (r: seq<Slot>)
    requires |slots| == COUNT && key < COUNT
    ensures |r| == COUNT
  {
    slots[key := slots[key].(scheduledValid := true, scheduled := value, dirty := slots[key].desired != value)]
  }

  /** The first observed dirty slot from the cursor on. */
  function NextDirty(slots: seq<Slot>, cursor: nat): (key: Option<nat>)
    requires cursor <= |slots|
    ensures key.Some? ==> cursor <= key.value < |slots| && slots[key.value].observed && slots[key.value].dirty
    ensures forall i :: cursor <= i < (if key.Some? then key.value else |slots|) ==> !(slots[i].observed && slots[i].dirty)
    decreases |slots| - cursor
  {
    if cursor == |slots| then None
    else if slots[cursor].observed && slots[cursor].dirty then Some(cursor)
    else NextDirty(slots, cursor + 1)
  }

  // ------------------------------------------------------------------ one sender among observers

  /** The flush by the step performed next: scan, send, mark. */
  datatype Sender = Resting | Scanning(cursor: nat) | Sending(key: nat, value: i16) | Marking(key: nat, value: i16)

  /** `sent` is the value last sent for each slot. */
  datatype State = State(slots: seq<Slot>, sender: Sender, sent: seq<Option<i16>>)

  datatype Op = ObserveOp(id: byte, value: i16) | ReleaseAllOp | Flush | Scan | Send(ok: bool) | MarkOp

  ghost predicate Shaped(s: State) {
    && |s.slots| == COUNT && |s.sent| == COUNT
    && (s.sender.Scanning? ==> s.sender.cursor <= COUNT)
    && (s.sender.Sending? || s.sender.Marking? ==> s.sender.key < COUNT)
  }

  function Step(s: State, op: Op): (r: State)
    requires Shaped(s)
    ensures Shaped(r)
  {
    match op
    case ObserveOp(id, value) => s.(slots := Observe(s.slots, id, value))
    case ReleaseAllOp => s.(slots := ReleaseAll(s.slots))
    case Flush => if s.sender.Resting? then s.(sender := Scanning(0)) else s
    case Scan =>
      if !s.sender.Scanning? then s
      else
        var key := NextDirty(s.slots, s.sender.cursor);
        s.(sender := if key.None? then Resting else Sending(key.value, s.slots[key.value].desired))
    case Send(ok) =>
      if !s.sender.Sending? then s
      else if !ok then s.(sender := Resting)
      else s.(sender := Marking(s.sender.key, s.sender.value), sent := s.sent[s.sender.key := Some(s.sender.value)])
    case MarkOp =>
      if !s.sender.Marking? then s
      else s.(slots := Mark(s.slots, s.sender.key, s.sender.value), sender := Scanning(s.sender.key + 1))
  }

  function Run(s: State, ops: seq<Op>): (r: State)
    requires Shaped(s)
    ensures Shaped(r)
    decreases ops
  {
    if ops == [] then s else Run(Step(s, ops[0]), ops[1..])
  }

  function Unused(): (slots: seq<Slot>)
    ensures |slots| == COUNT && forall i :: 0 <= i < COUNT ==> slots[i] == SLOT0
  {
    seq(COUNT, _ => SLOT0)
  }

  function Unsent(): (sent: seq<Option<i16>>)
    ensures |sent| == COUNT && forall i :: 0 <= i < COUNT ==> sent[i] == None
  {
    seq(COUNT, _ => None)
  }

  function Start(): (s: State)
    ensures Shaped(s)
  {
    State(Unused(), Resting, Unsent())
  }

  /** What holds of slot i: its control belongs there, its dirty bit compares wanted with scheduled,
      and what was scheduled is what was last sent, except between a send and its mark. */
  ghost predicate SlotOk(slot: Slot, i: nat, sent: Option<i16>, marking: bool) {
    && (slot.observed ==> Key(slot.id, slot.desired) == Some(i) && slot.dirty == Refreshed(slot).dirty)
    && (slot.scheduledValid && !marking ==> sent == Some(slot.scheduled))
  }

  predicate BeingMarked(sender: Sender, i: nat) { sender.Marking? && sender.key == i }

  ghost predicate Inv(s: State) {
    && Shaped(s)
    && (forall i :: 0 <= i < COUNT ==> SlotOk(s.slots[i], i, s.sent[i], BeingMarked(s.sender, i)))
    && (s.sender.Marking? ==> s.sent[s.sender.key] == Some(s.sender.value))
    && (s.sender.Sending? || s.sender.Marking? ==> s.slots[s.sender.key].observed)
  }

  lemma ObserveKeeps(s: State, id: byte, value: i16)
    requires Inv(s)
    ensures Inv(Step(s, ObserveOp(id, value)))
  {
    hide Key;
  }

  lemma ReleaseKeeps(s: State)
    requires Inv(s)
    ensures Inv(Step(s, ReleaseAllOp))
  {
    forall i | 0 <= i < COUNT ensures SlotOk(ReleaseSlot(s.slots[i]), i, s.sent[i], BeingMarked(s.sender, i)) {
      if s.slots[i].observed { ReleaseKeepsKey(s.slots[i].id, s.slots[i].desired); }
      hide Key, Released;
    }
    hide Key, Released, SlotOk;
  }

  lemma SenderKeeps(s: State, op: Op)
    requires Inv(s) && !op.ObserveOp? && !op.ReleaseAllOp?
    ensures Inv(Step(s, op))
  {
    hide Key;
  }

  lemma {:induction false} RunKeeps(s: State, ops: seq<Op>)
    requires Inv(s)
    ensures Inv(Run(s, ops))
    decreases ops
  {
    hide Inv, Step;
    if ops != [] {
      match ops[0] {
        case ObserveOp(id, value) => ObserveKeeps(s, id, value);
        case ReleaseAllOp => ReleaseKeeps(s);
        case _ => SenderKeeps(s, ops[0]);
      }
      InvShaped(s);
      InvShaped(Step(s, ops[0]));
      RunKeeps(Step(s, ops[0]), ops[1..]);
    }
  }

  lemma InvShaped(s: State)
    requires Inv(s)
    ensures Shaped(s)
  {
  }

  /** What an observer knows was last wanted of slot i: the last level seen, released since or not. */
  function Wish(w: Option<(byte, i16)>, op: Op, i: nat): Option<(byte, i16)> {
    match op
    case ObserveOp(id, value) => if Key(id, value) == Some(i) then Some((id, value)) else w
    case ReleaseAllOp => if w.Some? then Some((w.value.0, Released(w.value.0, w.value.1))) else w
    case _ => w
  }

  function LastWish(w: Option<(byte, i16)>, ops: seq<Op>, i: nat): Option<(byte, i16)>
    decreases ops
  {
    if ops == [] then w else LastWish(Wish(w, ops[0], i), ops[1..], i)
  }

  predicate Grants(slot: Slot, w: Option<(byte, i16)>) {
    && (slot.observed <==> w.Some?)
    && (w.Some? ==> (slot.id, slot.desired) == w.value)
  }

  /** In every run a slot wants exactly what was last observed of its control, or its release. */
  lemma {:induction false} WishesAreKept(s: State, w: Option<(byte, i16)>, ops: seq<Op>, i: nat)
    requires Shaped(s) && i < COUNT && Grants(s.slots[i], w)
    ensures Grants(Run(s, ops).slots[i], LastWish(w, ops, i))
    decreases ops
  {
    hide Key, Released;
    if ops != [] {
      WishesAreKept(Step(s, ops[0]), Wish(w, ops[0], i), ops[1..], i);
    }
  }

  /** The sender has sent this slot a value that is no longer wanted, and not yet marked it. */
  predicate Overtaken(s: State, i: nat)
    requires i < |s.slots|
  {
    s.sender.Marking? && s.sender.key == i && s.sender.value != s.slots[i].desired
  }

  /** In every run of observations, releases and one sender's flushes with failing sends: slot i
      holds a control whose key is i, and a clean slot was last sent its desired value exactly
      unless the sender stands between sending that slot an overtaken value and marking it. */
  lemma {:induction false} CleanMeansSent(ops: seq<Op>, i: nat)
    requires i < COUNT
    ensures var s := Run(Start(), ops);
            s.slots[i].observed ==>
              && Key(s.slots[i].id, s.slots[i].desired) == Some(i)
              && (!s.slots[i].dirty ==> (s.sent[i] == Some(s.slots[i].desired) <==> !Overtaken(s, i)))
  {
    assert Inv(Start());
    RunKeeps(Start(), ops);
    var s := Run(Start(), ops);
    assert SlotOk(s.slots[i], i, s.sent[i], BeingMarked(s.sender, i));
    hide Key, Run;
  }

  /** The state in which only slot 0 was ever used. */
  function Only(slot: Slot, sender: Sender, sent: Option<i16>): State {
    State(Unused()[0 := slot], sender, Unsent()[0 := sent])
  }

  lemma OnlyObserves(slot: Slot, sender: Sender, sent: Option<i16>, v: i16)
    requires Shaped(Only(slot, sender, sent))
    ensures Step(Only(slot, sender, sent), ObserveOp(DECK1_JOG_TOUCH, v))
         == Only(Refreshed(slot.(observed := true, id := DECK1_JOG_TOUCH, desired := v)), sender, sent)
  {
    var slot' := Refreshed(slot.(observed := true, id := DECK1_JOG_TOUCH, desired := v));
    assert Only(slot, sender, sent).slots[0 := slot'] == Unused()[0 := slot'];
  }

  lemma OnlyScans(slot: Slot, sent: Option<i16>)
    ensures Step(Only(slot, Resting, sent), Flush) == Only(slot, Scanning(0), sent)
    ensures slot.observed && slot.dirty ==> Step(Only(slot, Scanning(0), sent), Scan) == Only(slot, Sending(0, slot.desired), sent)
    ensures Step(Only(slot, Scanning(1), sent), Scan) == Only(slot, Resting, sent)
  {
    var slots := Only(slot, Scanning(1), sent).slots;
    assert forall i :: 1 <= i < COUNT ==> slots[i] == SLOT0;
  }

  lemma OnlySends(slot: Slot, v: i16, sent: Option<i16>)
    ensures Step(Only(slot, Sending(0, v), sent), Send(true)) == Only(slot, Marking(0, v), Some(v))
    ensures Step(Only(slot, Marking(0, v), sent), MarkOp)
         == Only(slot.(scheduledValid := true, scheduled := v, dirty := slot.desired != v), Scanning(1), sent)
  {
    assert Only(slot, Sending(0, v), sent).sent[0 := Some(v)] == Unsent()[0 := Some(v)];
    var slot' := slot.(scheduledValid := true, scheduled := v, dirty := slot.desired != v);
    assert Only(slot, Marking(0, v), sent).slots[0 := slot'] == Unused()[0 := slot'];
  }

  lemma RunFirst(s: State, a: Op, rest: seq<Op>)
    requires Shaped(s)
    ensures Run(s, [a] + rest) == Run(Step(s, a), rest)
  {
    assert ([a] + rest)[1..] == rest;
    hide Step;
  }

  /** That moment exists: the jog is touched, the touch is sent; lifted, picked up for sending, and
      touched again before the lift goes out. The slot is clean, touched, and last sent lifted. */
  lemma {:induction false} OvertakenMomentExists()
    ensures exists ops ::
              var s := Run(Start(), ops);
              s.slots[0].observed && !s.slots[0].dirty && s.slots[0].desired == 1 && s.sent[0] == Some(0)
  {
    hide Run, Step;
    var touched := Slot(true, false, true, DECK1_JOG_TOUCH, 1, 0);
    var clean := Slot(true, true, false, DECK1_JOG_TOUCH, 1, 1);
    var lifted := Slot(true, true, true, DECK1_JOG_TOUCH, 0, 1);
    assert Unused()[0 := SLOT0] == Unused() && Unsent()[0 := None] == Unsent();
    OnlyObserves(SLOT0, Resting, None, 1);
    OnlyScans(touched, None);
    OnlySends(touched, 1, None);
    OnlySends(touched, 1, Some(1));
    OnlyObserves(clean, Scanning(1), Some(1), 0);
    OnlyScans(lifted, Some(1));
    OnlyObserves(lifted, Sending(0, 0), Some(1), 1);
    OnlySends(clean, 0, Some(1));
    var ops3 := [ObserveOp(DECK1_JOG_TOUCH, 1), Send(true)];
    assert ops3 == [ObserveOp(DECK1_JOG_TOUCH, 1)] + [Send(true)] && [Send(true)] == [Send(true)] + [];
    RunFirst(Only(clean, Sending(0, 0), Some(1)), Send(true), []);
    RunFirst(Only(lifted, Sending(0, 0), Some(1)), ObserveOp(DECK1_JOG_TOUCH, 1), [Send(true)]);
    RunFirst(Only(lifted, Scanning(0), Some(1)), Scan, ops3);
    RunFirst(Only(lifted, Resting, Some(1)), Flush, [Scan] + ops3);
    RunFirst(Only(lifted, Scanning(1), Some(1)), Scan, [Flush] + ([Scan] + ops3));
    var ops2 := [Scan] + ([Flush] + ([Scan] + ops3));
    RunFirst(Only(clean, Scanning(1), Some(1)), ObserveOp(DECK1_JOG_TOUCH, 0), ops2);
    var ops1 := [ObserveOp(DECK1_JOG_TOUCH, 0)] + ops2;
    RunFirst(Only(touched, Marking(0, 1), Some(1)), MarkOp, ops1);
    RunFirst(Only(touched, Sending(0, 1), None), Send(true), [MarkOp] + ops1);
    RunFirst(Only(touched, Scanning(0), None), Scan, [Send(true)] + ([MarkOp] + ops1));
    var ops0 := [Scan] + ([Send(true)] + ([MarkOp] + ops1));
    RunFirst(Only(touched, Resting, None), Flush, ops0);
    RunFirst(Start(), ObserveOp(DECK1_JOG_TOUCH, 1), [Flush] + ops0);
    var ops := [ObserveOp(DECK1_JOG_TOUCH, 1)] + ([Flush] + ops0);
    RunNone(Only(clean, Marking(0, 0), Some(0)));
    assert Run(Start(), ops) == Only(clean, Marking(0, 0), Some(0));
  }

  lemma RunNone(s: State)
    requires Shaped(s)
    ensures Run(s, []) == s
  {
  }

  /** An undisturbed flush whose sends all succeed: scan, send, mark, until nothing is found. */
  function FlushFrom(slots: seq<Slot>, cursor: nat): (r: seq<Slot>)
    requires |slots| == COUNT && cursor <= COUNT
    ensures |r| == COUNT
    decreases COUNT - cursor
  {
    var key := NextDirty(slots, cursor);
    if key.None? then slots else FlushFrom(Mark(slots, key.value, slots[key.value].desired), key.value + 1)
  }

  /** Every slot from the cursor on is flushed: nothing of it is dirty afterwards, and no wish was
      changed. */
  lemma {:induction false} FlushCleansAll(slots: seq<Slot>, cursor: nat)
    requires |slots| == COUNT && cursor <= COUNT
    ensures var r := FlushFrom(slots, cursor);
            && (forall i :: 0 <= i < COUNT ==> r[i] == if i < cursor then slots[i] else Flushed(slots[i]))
            && (forall i :: cursor <= i < COUNT ==> !Waits(r[i]) && r[i].id == slots[i].id && r[i].desired == slots[i].desired)
    decreases COUNT - cursor
  {
    var key := NextDirty(slots, cursor);
    if key.Some? {
      FlushCleansAll(Mark(slots, key.value, slots[key.value].desired), key.value + 1);
    }
  }

  // ------------------------------------------------------------------ the code that updates in place

  class Reconciler {
    const slots: array<Slot>

    ghost predicate Valid() { slots.Length == COUNT }

    constructor ()
      ensures Valid() && fresh(slots) && forall i :: 0 <= i < COUNT ==> slots[i] == SLOT0
    {
      slots := new Slot[COUNT](_ => SLOT0);
    }

    method ObserveControl(id: byte, value: i16) returns (key: Option<nat>)
      requires Valid()
      modifies slots
      ensures key == Key(id, value) && slots[..] == Observe(old(slots[..]), id, value)
    {
      hide Key;
      key := Key(id, value);
      if key.None? { return; }
      var slot := slots[key.value].(observed := true, id := id, desired := value);
      slots[key.value] := slot.(dirty := !slot.scheduledValid || slot.scheduled != slot.desired);
    }

    method MarkScheduled(key: int, value: i16)
      requires Valid()
      modifies slots
      ensures slots[..] == if 0 <= key < COUNT then Mark(old(slots[..]), key, value) else old(slots[..])
    {
      if key < 0 || key >= COUNT { return; }
      slots[key] := slots[key].(scheduledValid := true, scheduled := value, dirty := slots[key].desired != value);
    }

    method ReleaseAllControls()
      requires Valid()
      modifies slots
      ensures slots[..] == ReleaseAll(old(slots[..]))
    {
      hide Released;
      for i := 0 to COUNT
        invariant forall j :: 0 <= j < COUNT ==> slots[j] == if j < i then ReleaseSlot(old(slots[j])) else old(slots[j])
      {
        if slots[i].observed {
          var slot := slots[i].(desired := Released(slots[i].id, slots[i].desired));
          slots[i] := slot.(dirty := !slot.scheduledValid || slot.scheduled != slot.desired);
        }
      }
      assert slots[..] == ReleaseAll(old(slots[..]));
    }

    method FindDirty(cursor: nat) returns (key: Option<nat>)
      requires Valid() && cursor <= COUNT
      ensures key == NextDirty(slots[..], cursor)
    {
      var i := cursor;
      while i < COUNT
        invariant cursor <= i <= COUNT
        invariant NextDirty(slots[..], cursor) == NextDirty(slots[..], i)
      {
        if slots[i].observed && slots[i].dirty { return Some(i); }
        i := i + 1;
      }
      return None;
    }

    /** A flush against a line that may fail at any send. Slots are visited in order up to
        `reached`, where a send failed if any did. Each dirty slot before it was sent its desired
        value once, in order, and is clean now; all others are as they were. */
    method FlushPending() returns (failed: bool, log: seq<(byte, i16)>, ghost reached: nat)
      requires Valid()
      modifies slots
      ensures reached <= COUNT && (failed <==> reached < COUNT)
      ensures failed ==> old(slots[..])[reached].observed && old(slots[..])[reached].dirty
      ensures log == Wanted(old(slots[..])[..reached])
      ensures forall i :: 0 <= i < COUNT ==> slots[i] == if i < reached then Flushed(old(slots[i])) else old(slots[i])
      ensures !failed ==> slots[..] == FlushFrom(old(slots[..]), 0)
    {
      hide FlushFrom, NextDirty, Wanted;
      FlushCleansAll(slots[..], 0);
      failed, log := false, [];
      var cursor := 0;
      ghost var was := slots[..];
      WantedNone(was);
      reached := 0;
      while cursor < COUNT
        invariant reached == cursor <= COUNT && log == Wanted(was[..cursor])
        invariant forall i :: 0 <= i < COUNT ==> slots[i] == if i < cursor then Flushed(was[i]) else was[i]
      {
        var key := FindDirty(cursor);
        ghost var next := if key.Some? then key.value else COUNT;
        CleanAreSkipped(was, cursor, next);
        reached := next;
        if key.None? { break; }
        cursor := key.value + 1;
        var id, value := slots[key.value].id, slots[key.value].desired;
        var ok: bool := *;
        if !ok { return true, log, reached; }
        WantedNext(was, key.value);
        log := log + [(id, value)];
        MarkScheduled(key.value, value);
        reached := cursor;
      }
    }
  }

  predicate Waits(slot: Slot) { slot.observed && slot.dirty }

  /** What a flush has to send for these slots, in order. */
  function Wanted(slots: seq<Slot>): seq<(byte, i16)> {
    if slots == [] then []
    else
      var last := slots[|slots| - 1];
      Wanted(slots[..|slots| - 1]) + if Waits(last) then [(last.id, last.desired)] else []
  }

  function Flushed(slot: Slot): Slot {
    if Waits(slot) then slot.(scheduledValid := true, scheduled := slot.desired, dirty := false) else slot
  }

  lemma WantedNone(slots: seq<Slot>)
    ensures Wanted(slots[..0]) == []
  {
  }

  lemma WantedNext(slots: seq<Slot>, k: nat)
    requires k < |slots| && Waits(slots[k])
    ensures Wanted(slots[..k + 1]) == Wanted(slots[..k]) + [(slots[k].id, slots[k].desired)]
  {
    assert slots[..k + 1][..k] == slots[..k];
  }

  lemma {:induction false} CleanAreSkipped(slots: seq<Slot>, lo: nat, hi: nat)
    requires lo <= hi <= |slots| && forall i :: lo <= i < hi ==> !Waits(slots[i])
    ensures Wanted(slots[..hi]) == Wanted(slots[..lo])
    decreases hi
  {
    if lo < hi {
      assert slots[..hi][..hi - 1] == slots[..hi - 1];
      CleanAreSkipped(slots, lo, hi - 1);
    }
  }
}
