/** Delivery of control events: an exact bounded queue for discrete ones, and one coalescing slot
    per continuous control, served round robin. */
module EventScheduler {
  import opened Wrappers
  import opened Words
  import opened RoundRobin

  const CAPACITY := 32

  datatype Event = Event(kind: byte, id: byte, value: i16)

  datatype Slot = Slot(used: bool, dirty: bool, event: Event)

  datatype Mode = LatestValue | AccumulateDelta

  datatype Table = Table(slots: seq<Slot>, cursor: nat)

  /** All slots, and where the next scan starts. */
  type Slots = t: Table | |t.slots| == CAPACITY && t.cursor < CAPACITY
    witness Table(seq(CAPACITY, _ => Slot(false, false, Event(0, 0, 0))), 0)

  predicate SameKey(a: Event, b: Event) { a.kind == b.kind && a.id == b.id }

  predicate Owns(slot: Slot, e: Event) { slot.used && SameKey(slot.event, e) }

  /** No control has two slots. */
  ghost predicate DistinctKeys(slots: seq<Slot>) {
    forall i, j :: 0 <= i < |slots| && 0 <= j < |slots| && i != j && slots[i].used && slots[j].used ==>
      !SameKey(slots[i].event, slots[j].event)
  }

  // ------------------------------------------------------------------ publishing

  /** The control's slot, else the first free one. */
  function Find(slots: seq<Slot>, e: Event, i: nat, free: Option<nat>): Option<nat>
    requires i <= |slots|
    decreases |slots| - i
  {
    if i == |slots| then free
    else if Owns(slots[i], e) then Some(i)
    else Find(slots, e, i + 1, if !slots[i].used && free.None? then Some(i) else free)
  }

  lemma {:induction false} FindSpec(slots: seq<Slot>, e: Event, i: nat, free: Option<nat>)
    requires i <= |slots|
    requires forall j :: 0 <= j < i ==> !Owns(slots[j], e)
    requires free.Some? ==> free.value < |slots| && !slots[free.value].used
    requires free.None? ==> forall j :: 0 <= j < i ==> slots[j].used
    ensures var r := Find(slots, e, i, free);
            && (r.Some? ==> r.value < |slots| && (slots[r.value].used ==> Owns(slots[r.value], e)))
            && ((exists j :: 0 <= j < |slots| && Owns(slots[j], e)) ==> r.Some? && Owns(slots[r.value], e))
            && (r.None? ==> forall j :: 0 <= j < |slots| ==> slots[j].used && !Owns(slots[j], e))
    decreases |slots| - i
  {
    if i < |slots| && !Owns(slots[i], e) {
      FindSpec(slots, e, i + 1, if !slots[i].used && free.None? then Some(i) else free);
    }
  }

  function Clamp(sum: int): i16 {
    if sum > 32767 then 32767 else if sum < -32768 then -32768 else sum
  }

  /** The nearest value that fits: the sum itself when it does. */
  lemma ClampIsNearest(sum: int, v: i16)
    ensures -32768 <= sum <= 32767 ==> Clamp(sum) == sum
    ensures Away(Clamp(sum), sum) <= Away(v, sum)
  {
  }

  function Away(x: int, y: int): nat { if x <= y then y - x else x - y }

  /** The slot after a publication it accepts. */
  function Updated(slot: Slot, e: Event, mode: Mode): Slot {
    if !slot.used || !slot.dirty || mode == LatestValue then Slot(true, true, e)
    else slot.(event := slot.event.(value := Clamp(slot.event.value + e.value)))
  }

  function Publish(s: Slots, e: Event, mode: Mode): (r: (Slots, bool))
    ensures |r.0.slots| == |s.slots| && r.0.cursor == s.cursor
  {
    var at := Find(s.slots, e, 0, None);
    if at.None? || at.value >= |s.slots| then (s, false)
    else (s.(slots := s.slots[at.value := Updated(s.slots[at.value], e, mode)]), true)
  }

  /** A publication is refused exactly when the control has no slot and none is free, and then changes
      nothing. */
  lemma {:induction false} PublishRefusedExactly(s: Slots, e: Event, mode: Mode)
    ensures !Publish(s, e, mode).1 <==> forall j :: 0 <= j < |s.slots| ==> s.slots[j].used && !Owns(s.slots[j], e)
    ensures !Publish(s, e, mode).1 ==> Publish(s, e, mode).0 == s
  {
    FindSpec(s.slots, e, 0, None);
    hide Find;
  }

  function Readiness(slots: seq<Slot>): (r: seq<bool>)
    ensures |r| == |slots|
  {
    seq(|slots|, i requires 0 <= i < |slots| => slots[i].used && slots[i].dirty)
  }

  function Take(s: Slots): (r: (Slots, Option<nat>))
    ensures (r.1.Some? ==> r.1.value < |s.slots|) && (r.1.None? ==> r.0 == s)
  {
    var at := NextReady(Readiness(s.slots), s.cursor, 0);
    if at.None? || at.value >= |s.slots| then (s, None)
    else (Table(s.slots[at.value := s.slots[at.value].(dirty := false)], Plus(at.value, 1, CAPACITY)), at)
  }

  // ------------------------------------------------------------------ runs

  datatype Op = PublishOne(e: Event, mode: Mode) | TakeOne

  function Step(s: Slots, op: Op): (s': Slots)
  {
    match op
    case PublishOne(e, mode) => Publish(s, e, mode).0
    case TakeOne => Take(s).0
  }

  function Run(s: Slots, ops: seq<Op>): (s': Slots)
    decreases ops
  {
    if ops == [] then s else Run(Step(s, ops[0]), ops[1..])
  }

  lemma StepKeepsDistinct(s: Slots, op: Op)
    requires DistinctKeys(s.slots)
    ensures DistinctKeys(Step(s, op).slots)
  {
    if op.PublishOne? { FindSpec(s.slots, op.e, 0, None); }
  }

  /** In every run no control gets a second slot. */
  lemma {:induction false} KeysStayDistinct(s: Slots, ops: seq<Op>)
    requires DistinctKeys(s.slots)
    ensures DistinctKeys(Run(s, ops).slots)
    decreases ops
  {
    hide DistinctKeys, Step;
    if ops != [] {
      StepKeepsDistinct(s, ops[0]);
      KeysStayDistinct(Step(s, ops[0]), ops[1..]);
    }
  }

  // ------------------------------------------------------------------ conservation of deltas

  /** What is still to be delivered for the control of `key`. */
  function Due(slot: Slot, key: Event): int {
    if Owns(slot, key) && slot.dirty then slot.event.value else 0
  }

  function Pending(slots: seq<Slot>, key: Event): int {
    if slots == [] then 0 else Due(slots[0], key) + Pending(slots[1..], key)
  }

  lemma {:induction false} PendingUpdate(slots: seq<Slot>, key: Event, i: nat, slot: Slot)
    requires i < |slots|
    ensures Pending(slots[i := slot], key) == Pending(slots, key) - Due(slots[i], key) + Due(slot, key)
    decreases slots
  {
    var slots' := slots[i := slot];
    if i == 0 {
      assert slots'[1..] == slots[1..];
    } else {
      assert slots'[1..] == slots[1..][i - 1 := slot];
      PendingUpdate(slots[1..], key, i - 1, slot);
    }
  }

  /** The observer's book for one control: the sum of accepted deltas, the sum of delivered values,
      and what saturation has cut off, over how many saturations. */
  datatype Book = Book(accepted: int, delivered: int, clipped: int, saturations: nat)

  /** How far a sum lies outside 16 bits. */
  function Excess(sum: int): int {
    if sum > 32767 then sum - 32767 else if sum < -32768 then sum + 32768 else 0
  }

  /** What this publication loses to saturation. */
  function Clip(s: Slots, e: Event): int {
    var at := Find(s.slots, e, 0, None);
    if at.None? || at.value >= |s.slots| || !s.slots[at.value].used || !s.slots[at.value].dirty then 0
    else Excess(s.slots[at.value].event.value + e.value)
  }

  function Record(book: Book, s: Slots, op: Op, key: Event): Book
  {
    match op
    case PublishOne(e, _) =>
      if !SameKey(e, key) || !Publish(s, e, op.mode).1 then book
      else book.(accepted := book.accepted + e.value, clipped := book.clipped + Clip(s, e),
                 saturations := book.saturations + if Clip(s, e) == 0 then 0 else 1)
    case TakeOne =>
      var at := Take(s).1;
      if at.Some? && SameKey(s.slots[at.value].event, key)
      then book.(delivered := book.delivered + s.slots[at.value].event.value) else book
  }

  function RecordAll(book: Book, s: Slots, ops: seq<Op>, key: Event): Book
    decreases ops
  {
    if ops == [] then book else RecordAll(Record(book, s, ops[0], key), Step(s, ops[0]), ops[1..], key)
  }

  /** The control is always published as a delta. */
  predicate AlwaysDelta(ops: seq<Op>, key: Event) {
    forall i :: 0 <= i < |ops| && ops[i].PublishOne? && SameKey(ops[i].e, key) ==> ops[i].mode == AccumulateDelta
  }

  predicate Balanced(book: Book, s: Slots, key: Event) {
    && book.delivered + Pending(s.slots, key) + book.clipped == book.accepted
    && (book.saturations == 0 ==> book.clipped == 0)
  }

  lemma PublishBalances(book: Book, s: Slots, e: Event, mode: Mode, key: Event)
    requires Balanced(book, s, key) && (SameKey(e, key) ==> mode == AccumulateDelta)
    ensures Balanced(Record(book, s, PublishOne(e, mode), key), Publish(s, e, mode).0, key)
  {
    FindSpec(s.slots, e, 0, None);
    var at := Find(s.slots, e, 0, None);
    if at.Some? {
      PendingUpdate(s.slots, key, at.value, Updated(s.slots[at.value], e, mode));
    }
    hide Find, Pending;
  }

  lemma TakeBalances(book: Book, s: Slots, key: Event)
    requires Balanced(book, s, key)
    ensures Balanced(Record(book, s, TakeOne, key), Take(s).0, key)
  {
    NextIsNearest(Readiness(s.slots), s.cursor, 0);
    var at := Take(s).1;
    if at.Some? {
      PendingUpdate(s.slots, key, at.value, s.slots[at.value].(dirty := false));
    }
    hide NextReady, Pending;
  }

  /** In every run, for every control always published as a delta: delivered values and the pending
      one add up to the accepted deltas, less exactly what saturation cut off; without saturation
      nothing is lost. */
  lemma {:induction false} DeltasAreConserved(book: Book, s: Slots, ops: seq<Op>, key: Event)
    requires Balanced(book, s, key) && AlwaysDelta(ops, key)
    ensures Balanced(RecordAll(book, s, ops, key), Run(s, ops), key)
    decreases ops
  {
    if ops != [] {
      match ops[0] {
        case PublishOne(e, mode) => PublishBalances(book, s, e, mode, key);
        case TakeOne => TakeBalances(book, s, key);
      }
      DeltasAreConserved(Record(book, s, ops[0], key), Step(s, ops[0]), ops[1..], key);
    }
    hide Balanced, Record, Publish, Take;
  }

  // ------------------------------------------------------------------ the latest value wins

  /** The observer's memory for one control: the value last accepted and the value last delivered. */
  datatype Memory = Memory(accepted: Option<i16>, delivered: Option<i16>)

  function Remember(m: Memory, s: Slots, op: Op, key: Event): Memory
  {
    match op
    case PublishOne(e, mode) =>
      if SameKey(e, key) && Publish(s, e, mode).1 then m.(accepted := Some(e.value)) else m
    case TakeOne =>
      var at := Take(s).1;
      if at.Some? && SameKey(s.slots[at.value].event, key) then m.(delivered := Some(s.slots[at.value].event.value)) else m
  }

  function RememberAll(m: Memory, s: Slots, ops: seq<Op>, key: Event): Memory
    decreases ops
  {
    if ops == [] then m else RememberAll(Remember(m, s, ops[0], key), Step(s, ops[0]), ops[1..], key)
  }

  predicate AlwaysLatest(ops: seq<Op>, key: Event) {
    forall i :: 0 <= i < |ops| && ops[i].PublishOne? && SameKey(ops[i].e, key) ==> ops[i].mode == LatestValue
  }

  /** A pending value is the one last accepted; with nothing pending it has been delivered. */
  ghost predicate UpToDate(m: Memory, slots: seq<Slot>, key: Event) {
    && (forall i :: 0 <= i < |slots| && Owns(slots[i], key) ==>
          && m.accepted.Some?
          && (if slots[i].dirty then slots[i].event.value == m.accepted.value else m.delivered == m.accepted))
    && (m.accepted.Some? ==> exists i :: 0 <= i < |slots| && Owns(slots[i], key))
  }

  lemma PublishStaysUpToDate(m: Memory, s: Slots, e: Event, mode: Mode, key: Event)
    requires DistinctKeys(s.slots) && UpToDate(m, s.slots, key) && (SameKey(e, key) ==> mode == LatestValue)
    ensures UpToDate(Remember(m, s, PublishOne(e, mode), key), Publish(s, e, mode).0.slots, key)
  {
    FindSpec(s.slots, e, 0, None);
    hide Find;
    var s' := Publish(s, e, mode).0;
    var at := Find(s.slots, e, 0, None);
    if at.Some? {
      assert Owns(s'.slots[at.value], e);
      if !SameKey(e, key) && m.accepted.Some? {
        var i :| 0 <= i < |s.slots| && Owns(s.slots[i], key);
        assert i != at.value && s'.slots[i] == s.slots[i];
      }
    }
  }

  lemma TakeStaysUpToDate(m: Memory, s: Slots, key: Event)
    requires DistinctKeys(s.slots) && UpToDate(m, s.slots, key)
    ensures UpToDate(Remember(m, s, TakeOne, key), Take(s).0.slots, key)
  {
    NextIsNearest(Readiness(s.slots), s.cursor, 0);
    hide NextReady;
    var (s', at) := Take(s);
    if m.accepted.Some? {
      var i :| 0 <= i < |s.slots| && Owns(s.slots[i], key);
      assert Owns(s'.slots[i], key);
    }
  }

  /** In every run, for every control always published as a latest value: what is pending is the
      value last accepted, and once nothing is pending that value is the one last delivered. */
  lemma {:induction false} LatestValueArrives(m: Memory, s: Slots, ops: seq<Op>, key: Event)
    requires DistinctKeys(s.slots) && UpToDate(m, s.slots, key) && AlwaysLatest(ops, key)
    ensures UpToDate(RememberAll(m, s, ops, key), Run(s, ops).slots, key)
    decreases ops
  {
    if ops != [] {
      StepKeepsDistinct(s, ops[0]);
      match ops[0] {
        case PublishOne(e, mode) => PublishStaysUpToDate(m, s, e, mode, key);
        case TakeOne => TakeStaysUpToDate(m, s, key);
      }
      LatestValueArrives(Remember(m, s, ops[0], key), Step(s, ops[0]), ops[1..], key);
    }
    hide UpToDate, Remember, Publish, Take, DistinctKeys;
  }

  // ------------------------------------------------------------------ fairness

  function Takes(ops: seq<Op>): nat
    decreases ops
  {
    if ops == [] then 0 else (if ops[0].TakeOne? then 1 else 0) + Takes(ops[1..])
  }

  /** Some take of the run serves slot i. */
  predicate Served(s: Slots, ops: seq<Op>, i: nat)
    decreases ops
  {
    ops != [] && ((ops[0].TakeOne? && Take(s).1 == Some(i)) || Served(Step(s, ops[0]), ops[1..], i))
  }

  lemma PublishKeepsDirty(s: Slots, e: Event, mode: Mode, i: nat)
    requires i < CAPACITY && s.slots[i].used && s.slots[i].dirty
    ensures var s' := Publish(s, e, mode).0; s'.slots[i].used && s'.slots[i].dirty && s'.cursor == s.cursor
  {
  }

  lemma TakeComesNearer(s: Slots, i: nat)
    requires i < CAPACITY && s.slots[i].used && s.slots[i].dirty
    ensures var (s', at) := Take(s);
            at == Some(i) || (s'.slots[i] == s.slots[i] && Distance(s'.cursor, i, CAPACITY) < Distance(s.cursor, i, CAPACITY))
  {
    ServingBringsNearer(Readiness(s.slots), s.cursor, i);
  }

  /** Whatever is published meanwhile, a dirty slot is served after at most as many other takes as
      the cursor is away from it, so within CAPACITY takes. */
  lemma {:induction false} DirtySlotIsServed(s: Slots, ops: seq<Op>, i: nat)
    requires i < CAPACITY && s.slots[i].used && s.slots[i].dirty
    requires Takes(ops) > Distance(s.cursor, i, CAPACITY)
    ensures Served(s, ops, i)
    decreases ops
  {
    hide Publish, Take, Distance;
    match ops[0] {
      case PublishOne(e, mode) => PublishKeepsDirty(s, e, mode, i);
      case TakeOne => TakeComesNearer(s, i);
    }
    if !(ops[0].TakeOne? && Take(s).1 == Some(i)) {
      DirtySlotIsServed(Step(s, ops[0]), ops[1..], i);
    }
  }

  // ------------------------------------------------------------------ the code that updates in place

  const NO_EVENT := Event(0, 0, 0)
  const DISCRETE_BUDGET := 8
  const CONTINUOUS_BUDGET := 4

  /** Up to n takes, ending early when nothing is dirty: what they leave and what they deliver. */
  function TakeMany(s: Slots, n: nat): (r: (Slots, seq<Event>))
    ensures |r.1| <= n
    decreases n
  {
    var (s1, at) := Take(s);
    if n == 0 || at.None? then (s, [])
    else
      var (last, more) := TakeMany(s1, n - 1);
      (last, [s.slots[at.value].event] + more)
  }

  /** One of the next n takes serves slot i. */
  predicate ServedWithin(s: Slots, n: nat, i: nat)
    decreases n
  {
    n > 0 && Take(s).1.Some? && (Take(s).1 == Some(i) || ServedWithin(Take(s).0, n - 1, i))
  }

  /** While slot i waits, a round of n takes serves it or brings the cursor n places nearer. */
  lemma {:induction false} RoundComesNearer(s: Slots, n: nat, i: nat)
    requires i < CAPACITY && s.slots[i].used && s.slots[i].dirty
    ensures var (s', events) := TakeMany(s, n);
            || (ServedWithin(s, n, i) && s.slots[i].event in events)
            || (s'.slots[i] == s.slots[i] && |events| == n && Distance(s'.cursor, i, CAPACITY) + n <= Distance(s.cursor, i, CAPACITY))
    decreases n
  {
    hide Take, Distance;
    if n > 0 {
      TakeComesNearer(s, i);
      TakeServes(s, i);
      var (s1, at) := Take(s);
      if at != Some(i) { RoundComesNearer(s1, n - 1, i); }
    }
  }

  lemma TakeServes(s: Slots, i: nat)
    requires i < CAPACITY && s.slots[i].used && s.slots[i].dirty
    ensures Take(s).1.Some?
  {
    ServingBringsNearer(Readiness(s.slots), s.cursor, i);
    hide NextReady;
  }

  /** The queued events, oldest first. */
  ghost function Queued(fifo: seq<Event>, head: nat, count: nat): (q: seq<Event>)
    requires |fifo| == CAPACITY && head < CAPACITY && count <= CAPACITY
    ensures |q| == count
  {
    seq(count, i requires 0 <= i < count => fifo[Plus(head, i, CAPACITY)])
  }

  lemma EnqueueAppends(fifo: seq<Event>, head: nat, count: nat, e: Event)
    requires |fifo| == CAPACITY && head < CAPACITY && count < CAPACITY
    ensures Queued(fifo[Plus(head, count, CAPACITY) := e], head, count + 1) == Queued(fifo, head, count) + [e]
  {
  }

  lemma DequeueDrops(fifo: seq<Event>, head: nat, count: nat)
    requires |fifo| == CAPACITY && head < CAPACITY && 0 < count <= CAPACITY
    ensures Queued(fifo, head, count)[0] == fifo[head]
    ensures Queued(fifo, head, count)[1..] == Queued(fifo, Plus(head, 1, CAPACITY), count - 1)
  {
  }

  class Scheduler {
    const fifo: array<Event>
    var head: nat
    var tail: nat
    var count: nat
    const continuous: array<Slot>
    var cursor: nat

    ghost predicate Valid()
      reads this, fifo, continuous
    {
      && fifo.Length == CAPACITY && head < CAPACITY && count <= CAPACITY && tail == Plus(head, count, CAPACITY)
      && continuous.Length == CAPACITY && cursor < CAPACITY && DistinctKeys(continuous[..])
    }

    ghost function Discrete(): seq<Event>
      requires Valid()
      reads this, fifo, continuous
    {
      Queued(fifo[..], head, count)
    }

    ghost function View(): (s: Slots)
      requires Valid()
      reads this, fifo, continuous
      {
      Table(continuous[..], cursor)
    }

    constructor ()
      ensures Valid() && Discrete() == [] && fresh(fifo) && fresh(continuous)
      ensures cursor == 0 && forall i :: 0 <= i < CAPACITY ==> !continuous[i].used
    {
      fifo := new Event[CAPACITY](_ => NO_EVENT);
      continuous := new Slot[CAPACITY](_ => Slot(false, false, NO_EVENT));
      head, tail, count, cursor := 0, 0, 0, 0;
    }

    /** Refused exactly when 32 events wait; else the event joins the end of the queue. */
    method EnqueueDiscrete(e: Event) returns (ok: bool)
      requires Valid()
      modifies this, fifo
      ensures Valid() && View() == old(View())
      ensures ok <==> |old(Discrete())| < CAPACITY
      ensures Discrete() == if ok then old(Discrete()) + [e] else old(Discrete())
    {
      hide DistinctKeys;
      if count >= CAPACITY { return false; }
      EnqueueAppends(fifo[..], head, count, e);
      fifo[tail] := e;
      assert fifo[..] == old(fifo[..])[tail := e];
      PlusIsMod(tail, 1, CAPACITY);
      tail := (tail + 1) % CAPACITY;
      count := count + 1;
      return true;
    }

    /** The oldest event leaves. */
    method DequeueDiscrete() returns (e: Option<Event>)
      requires Valid()
      modifies this
      ensures Valid() && View() == old(View())
      ensures e.Some? <==> old(Discrete()) != []
      ensures e.Some? ==> old(Discrete()) == [e.value] + Discrete()
      ensures e.None? ==> Discrete() == []
    {
      hide DistinctKeys;
      if count == 0 { return None; }
      DequeueDrops(fifo[..], head, count);
      e := Some(fifo[head]);
      PlusIsMod(head, 1, CAPACITY);
      head := (head + 1) % CAPACITY;
      count := count - 1;
    }

    method FindSlot(e: Event) returns (at: Option<nat>)
      requires Valid()
      ensures at == Find(continuous[..], e, 0, None) && (at.Some? ==> at.value < CAPACITY)
    {
      at := None;
      var i := 0;
      while i < CAPACITY
        invariant i <= CAPACITY && (at.Some? ==> at.value < CAPACITY)
        invariant Find(continuous[..], e, 0, None) == Find(continuous[..], e, i, at)
      {
        assert continuous[..][i] == continuous[i];
        if continuous[i].used && SameKey(continuous[i].event, e) { return Some(i); }
        if !continuous[i].used && at.None? { at := Some(i); }
        i := i + 1;
      }
    }

    method PublishContinuous(e: Event, mode: Mode) returns (ok: bool)
      requires Valid()
      modifies continuous
      ensures Valid() && Discrete() == old(Discrete())
      ensures (View(), ok) == Publish(old(View()), e, mode)
    {
      StepKeepsDistinct(View(), PublishOne(e, mode));
      hide DistinctKeys, Find;
      var at := FindSlot(e);
      if at.None? { return false; }
      var slot := continuous[at.value];
      if !slot.used || !slot.dirty {
        slot := Slot(true, true, e);
      } else if mode == AccumulateDelta {
        var sum := slot.event.value + e.value;
        var clamped := if sum > 32767 then 32767 else if sum < -32768 then -32768 else sum;
        slot := slot.(event := slot.event.(value := clamped));
      } else {
        slot := Slot(true, true, e);
      }
      continuous[at.value] := slot;
      assert continuous[..] == old(continuous[..])[at.value := slot];
      return true;
    }

    /** The next dirty slot from the cursor is served and becomes clean. */
    method TakeContinuous() returns (e: Option<Event>)
      requires Valid()
      modifies this`cursor, continuous
      ensures Valid() && Discrete() == old(Discrete())
      ensures View() == Take(old(View())).0
      ensures var at := Take(old(View())).1;
              e == if at.Some? then Some(old(continuous[..])[at.value].event) else None
    {
      StepKeepsDistinct(View(), TakeOne);
      hide DistinctKeys;
      ghost var ready := Readiness(continuous[..]);
      var offset := 0;
      while offset < CAPACITY
        invariant offset <= CAPACITY && cursor == old(cursor) && continuous[..] == old(continuous[..])
        invariant NextReady(ready, cursor, 0) == NextReady(ready, cursor, offset)
      {
        PlusIsMod(cursor, offset, CAPACITY);
        var index := (cursor + offset) % CAPACITY;
        if continuous[index].used && continuous[index].dirty {
          e := Some(continuous[index].event);
          continuous[index] := continuous[index].(dirty := false);
          assert continuous[..] == old(continuous[..])[index := old(continuous[..])[index].(dirty := false)];
          PlusIsMod(index, 1, CAPACITY);
          cursor := (index + 1) % CAPACITY;
          return;
        }
        offset := offset + 1;
      }
      return None;
    }

    /** One pass of the translator: up to eight discrete events in order, then up to four
        continuous ones, round robin. */
    method SchedulePending() returns (sent: seq<Event>)
      requires Valid()
      modifies this, continuous
      ensures Valid()
      ensures var k := if |old(Discrete())| < DISCRETE_BUDGET then |old(Discrete())| else DISCRETE_BUDGET;
              && k <= |sent| && sent[..k] == old(Discrete())[..k] && Discrete() == old(Discrete())[k..]
              && (View(), sent[k..]) == TakeMany(old(View()), CONTINUOUS_BUDGET)
    {
      var discrete := DrainDiscrete();
      var rest := DrainContinuous();
      sent := discrete + rest;
      assert sent[..|discrete|] == discrete && sent[|discrete|..] == rest;
      hide Take, DistinctKeys;
    }

    method DrainDiscrete() returns (sent: seq<Event>)
      requires Valid()
      modifies this
      ensures Valid() && View() == old(View())
      ensures |sent| == if |old(Discrete())| < DISCRETE_BUDGET then |old(Discrete())| else DISCRETE_BUDGET
      ensures sent == old(Discrete())[..|sent|] && Discrete() == old(Discrete())[|sent|..]
    {
      hide DistinctKeys, Queued;
      sent := [];
      for i := 0 to DISCRETE_BUDGET
        invariant Valid() && View() == old(View()) && |sent| == i <= |old(Discrete())|
        invariant sent == old(Discrete())[..i] && Discrete() == old(Discrete())[i..]
      {
        var e := DequeueDiscrete();
        if e.None? { return; }
        sent := sent + [e.value];
      }
    }

    method DrainContinuous() returns (sent: seq<Event>)
      requires Valid()
      modifies this`cursor, continuous
      ensures Valid() && Discrete() == old(Discrete())
      ensures (View(), sent) == TakeMany(old(View()), CONTINUOUS_BUDGET)
    {
      hide DistinctKeys, Queued, Take, TakeMany;
      sent := [];
      ghost var all := TakeMany(View(), CONTINUOUS_BUDGET);
      assert [] + all.1 == all.1;
      for i := 0 to CONTINUOUS_BUDGET
        invariant Valid() && Discrete() == old(Discrete())
        invariant all == Joined(sent, TakeMany(View(), CONTINUOUS_BUDGET - i))
      {
        TakeManyUnfolds(View(), CONTINUOUS_BUDGET - i, sent);
        var e := TakeContinuous();
        if e.None? { return; }
        sent := sent + [e.value];
      }
      TakeManyUnfolds(View(), 0, sent);
    }
  }

  function Joined(sent: seq<Event>, rest: (Slots, seq<Event>)): (Slots, seq<Event>) { (rest.0, sent + rest.1) }

  lemma TakeManyUnfolds(s: Slots, n: nat, sent: seq<Event>)
    ensures n == 0 || Take(s).1.None? ==> Joined(sent, TakeMany(s, n)) == (s, sent)
    ensures n > 0 && Take(s).1.Some? ==>
              Joined(sent, TakeMany(s, n)) == Joined(sent + [s.slots[Take(s).1.value].event], TakeMany(Take(s).0, n - 1))
  {
    hide Take;
    assert sent + [] == sent;
    if n > 0 && Take(s).1.Some? {
      var e, more := s.slots[Take(s).1.value].event, TakeMany(Take(s).0, n - 1).1;
      assert sent + ([e] + more) == (sent + [e]) + more;
    }
  }
}
