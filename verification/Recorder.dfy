/** The master recorder: the audio task, the card writer and the task that starts and stops sessions,
    one shared-memory access at a time, in every interleaving, with arbitrary card faults. */
module Recorder {
  import opened Words

  const BLOCK_SAMPLES: nat := 512

  datatype Block = Block(sampleRate: u32, samples: seq<i16>)

  /** A slot holds at most 256 stereo frames. */
  function Clamp(b: Block): Block {
    if |b.samples| > BLOCK_SAMPLES then b.(samples := b.samples[..BLOCK_SAMPLES]) else b
  }

  // ------------------------------------------------------------------ the ring index

  /** The slot of a free-running 32-bit counter in a ring of any capacity. */
  function Slot(count: nat, capacity: nat): nat
    requires 0 < capacity
  {
    Wrap(count, TWO32) % capacity
  }

  /** Slots of live positions never coincide, however long the session runs, exactly when the
      capacity divides 2^32. The shipped ring holds 508 blocks, so it relies on a session staying
      below 2^32 blocks. */
  lemma SlotsDistinctIffDivides(capacity: nat)
    requires 0 < capacity < TWO32
    ensures TWO32 % capacity == 0 <==>
            forall a: nat, b: nat :: a < b < a + capacity ==> Slot(a, capacity) != Slot(b, capacity)
  {
    if TWO32 % capacity == 0 {
      forall a: nat, b: nat | a < b < a + capacity ensures Slot(a, capacity) != Slot(b, capacity) {
        SlotDivides(a, capacity);
        SlotDivides(b, capacity);
        if Slot(a, capacity) == Slot(b, capacity) {
          WrapInjective(a, b, capacity);
        }
      }
    } else {
      var m := TWO32 % capacity;
      var a, b := TWO32 - 1, TWO32 + (m - 1);
      SlotAtWrap(capacity, m);
      assert a < b < a + capacity && Slot(a, capacity) == Slot(b, capacity);
    }
  }

  lemma SlotDivides(count: nat, capacity: nat)
    requires 0 < capacity < TWO32 && TWO32 % capacity == 0
    ensures Slot(count, capacity) == Wrap(count, capacity)
  {
    WrapIsMod(count, TWO32);
    WrapIsMod(count, capacity);
    var q, r := Decompose(count, TWO32);
    var q', r' := Decompose(r, capacity);
    var k, z := Decompose(TWO32, capacity);
    Regroup(q, k, q', capacity);
    ModIs(count, q * k + q', r', capacity);
  }

  lemma SlotAtWrap(capacity: nat, m: nat)
    requires 0 < capacity < TWO32 && m == TWO32 % capacity && 0 < m
    ensures Slot(TWO32 - 1, capacity) == m - 1 && Slot(TWO32 + (m - 1), capacity) == m - 1
  {
    var q, r := Decompose(TWO32, capacity);
    ModIs(TWO32 - 1, q, m - 1, capacity);
    WrapMove(0, m - 1, TWO32);
    assert Wrap(TWO32 + (m - 1), TWO32) == Wrap(m - 1, TWO32) == m - 1;
    ModIs(m - 1, 0, m - 1, capacity);
  }

  lemma SlotBelowWrap(count: nat, capacity: nat)
    requires 0 < capacity && count < TWO32
    ensures Slot(count, capacity) == Wrap(count, capacity)
  {
    WrapIsMod(count, capacity);
  }

  // ------------------------------------------------------------------ tasks

  datatype Phase = Stopped | Starting | Recording | Stopping | Error

  /** audio_recorder_push_master, by the access performed next. */
  datatype Producer =
    | Idle
    | SawRecording(b: Block)
    | Entering(b: Block)
    | Rechecking(b: Block)
    | BackingOut
    | Inside(b: Block)
    | Copying(b: Block)
    | Publishing(b: Block)
    | Leaving

  /** writer_task, by the access performed next. */
  datatype Writer =
    | NoWriter
    | Looping
    | Peeking(st: Phase)
    | Writing
    | Consuming
    | Checkpointing
    | FailClosing
    | FailStoring
    | Exiting
    | Exited

  /** audio_recorder_start and audio_recorder_stop, by the access performed next. */
  datatype Control =
    | Free
    | Allocating
    | Opening
    | OpenStoring
    | Announcing
    | Creating
    | CreateClosing
    | CreateStoring
    | CreateFreeing
    | StopClosing(st: Phase)
    | StopWaiting(st: Phase)
    | StopPublishing(st: Phase)
    | StopJoining
    | StopJudging
    | StopFinishing(ok: bool)
    | StopReleasing

  /** How the last session ended: with which blocks in the file, and which had been accepted. */
  datatype Verdict = NoVerdict | Published(file: seq<Block>, accepted: seq<Block>, faulted: bool) | KeptPartial

  /** Everything but the gate and what the producer writes. `sink` are the blocks handed to the card. */
  datatype Core = Core(
    phase: Phase, hasRing: bool, capacity: nat, read: nat,
    sink: seq<Block>, lastError: bool, faulted: bool,
    exitBit: bool, writerHandle: bool, writer: Writer, control: Control, verdict: Verdict)

  /** `accepted` are the blocks published into the ring in this session; `session` counts the rings
      set up. `stranded` is set when the ring is freed under an admitted producer. What follows has no
      meaning in C, so a run stands still there. */
  datatype State = State(
    core: Core, accepting: bool, active: nat, slots: seq<Block>, accepted: seq<Block>,
    producer: Producer, session: nat, stranded: bool)

  /** The producer holds the gate: it passed the second look at `accepting`. */
  predicate Admitted(p: Producer) { p.Inside? || p.Copying? || p.Publishing? }

  /** The producer is counted by the gate. */
  predicate Counted(p: Producer) { Admitted(p) || p.Rechecking? || p.BackingOut? || p.Leaving? }

  /** Admission is shut for good: the barrier was passed, or no session is open yet. */
  predicate Barred(c: Control) {
    || c.StopPublishing? || c.StopJoining? || c.StopJudging? || c.StopFinishing? || c.StopReleasing?
    || c.Allocating? || c.Opening? || c.OpenStoring?
  }

  ghost predicate Inv(s: State) {
    if s.stranded then
      Admitted(s.producer) && !s.core.hasRing && s.core.writer.NoWriter? && VerdictOk(s.core.verdict)
    else Sound(s)
  }

  ghost predicate Sound(s: State) {
    && !s.stranded
    && GateOk(s.core.control, s.core.phase, s.accepting, s.active, s.producer)
    && RingOk(s.core.hasRing, s.core.capacity, s.core.read, s.accepted, s.slots, s.producer)
    && SessionOk(s.core, s.accepted) && WriterOk(s.core, s.accepted) && VerdictOk(s.core.verdict)
  }

  /** A state a run can be in, and one in which no producer has been stranded. */
  type Live = s: State | Inv(s) ghost witness REST
  type Sane = s: State | Sound(s) ghost witness REST

  const REST := State(
    Core(Stopped, false, 0, 0, [], false, false, false, false, NoWriter, Free, NoVerdict), false, 0, [], [], Idle, 0, false)

  ghost predicate GateOk(c: Control, phase: Phase, accepting: bool, active: nat, p: Producer) {
    && active == (if Counted(p) then 1 else 0)
    && (Barred(c) || c.StopWaiting? || c.CreateStoring? || c.CreateFreeing? ==> !accepting)
    && (Barred(c) ==> !Admitted(p))
    && (c.Free? && phase == Stopped ==> !accepting && !Admitted(p))
  }

  /** Live positions are in their slots, and an admitted producer has storage to write to. */
  ghost predicate RingOk(hasRing: bool, capacity: nat, read: nat, accepted: seq<Block>, slots: seq<Block>, p: Producer) {
    && (Admitted(p) ==> hasRing)
    && read <= |accepted| < TWO32
    && (hasRing ==> |accepted| <= read + capacity && Held(slots, capacity, accepted, read))
    && (p.Copying? || p.Publishing? ==> |accepted| < read + capacity && |accepted| + 1 < TWO32)
    && (p.Publishing? ==> 0 < capacity == |slots| && slots[Wrap(|accepted|, capacity)] == Clamp(p.b))
  }

  ghost predicate Held(slots: seq<Block>, capacity: nat, accepted: seq<Block>, read: nat) {
    && 0 < capacity == |slots|
    && forall k :: read <= k < |accepted| ==> slots[Wrap(k, capacity)] == accepted[k]
  }

  /** Which phases go with which step of the controlling task. */
  ghost predicate SessionOk(s: Core, accepted: seq<Block>) {
    && s.faulted == s.lastError
    && (s.phase == Error ==> s.lastError)
    && match s.control
       case Free =>
         if s.phase == Stopped then !s.hasRing && s.writer.NoWriter? && !s.writerHandle
         else (s.phase == Recording || s.phase == Error) && s.hasRing && !s.writer.NoWriter? && s.writerHandle
       case Allocating => s.phase == Starting && !s.hasRing && s.writer.NoWriter? && !s.writerHandle
       case Opening => Opened(s) && s.phase == Starting && accepted == []
       case OpenStoring => Opened(s) && s.phase == Starting && accepted == []
       case Announcing => Opened(s) && s.phase == Starting
       case Creating => Opened(s) && s.phase == Recording
       case CreateClosing => Opened(s) && s.phase == Recording
       case CreateStoring => Opened(s) && s.phase == Recording
       case CreateFreeing => Opened(s) && s.phase == Stopped
       case StopClosing(st) => StoppingFrom(s, st)
       case StopWaiting(st) => StoppingFrom(s, st)
       case StopPublishing(st) => StoppingFrom(s, st)
       case StopJoining => s.hasRing && s.writerHandle && !s.writer.NoWriter? && (s.phase == Stopping || s.phase == Error)
       case StopJudging => s.hasRing && s.writer.Exited? && !s.writerHandle
       case StopFinishing(ok) => s.hasRing && s.writer.Exited? && !s.writerHandle && (ok <==> !s.lastError)
       case StopReleasing => s.hasRing && s.writer.Exited? && !s.writerHandle
  }

  ghost predicate Opened(s: Core) {
    && s.hasRing && s.writer.NoWriter? && !s.writerHandle && !s.exitBit
    && s.read == 0 && s.sink == [] && !s.lastError
  }

  ghost predicate StoppingFrom(s: Core, st: Phase) {
    && s.hasRing && s.writerHandle && !s.writer.NoWriter?
    && (s.phase == Recording || s.phase == Error) && (st == Recording || st == Error)
    && (st == Error ==> s.phase == Error)
  }

  /** The card has exactly the accepted blocks up to the read position, in order, and one more while
      a written block is not yet consumed. A writer that leaves without a fault has drained the ring
      after the barrier. */
  ghost predicate WriterOk(s: Core, accepted: seq<Block>) {
    && (s.control.StopJoining? && !s.lastError ==> s.phase == Stopping)
    && match s.writer
       case NoWriter => true
       case Peeking(st) =>
         && WrittenUpTo(s.sink, accepted, s.read) && !s.exitBit && !s.lastError
         && (st == Recording || st == Stopping) && (st == Stopping ==> s.control.StopJoining?)
       case Looping => WrittenUpTo(s.sink, accepted, s.read) && !s.exitBit && !s.lastError
       case Writing => WrittenUpTo(s.sink, accepted, s.read) && s.read < |accepted| && !s.exitBit && !s.lastError
       case Consuming => WrittenUpTo(s.sink, accepted, s.read + 1) && !s.exitBit && !s.lastError
       case Checkpointing => WrittenUpTo(s.sink, accepted, s.read) && !s.exitBit && !s.lastError
       case FailClosing => !s.exitBit && s.lastError
       case FailStoring => !s.exitBit && s.lastError
       case Exiting => !s.exitBit && (s.lastError || (AfterBarrier(s.control) && s.sink == accepted))
       case Exited => s.exitBit && (s.lastError || (AfterBarrier(s.control) && s.sink == accepted))
  }

  ghost predicate WrittenUpTo(sink: seq<Block>, accepted: seq<Block>, n: nat) {
    n <= |accepted| && sink == accepted[..n]
  }

  predicate AfterBarrier(c: Control) {
    c.StopJoining? || c.StopJudging? || c.StopFinishing? || c.StopReleasing?
  }

  ghost predicate VerdictOk(v: Verdict) {
    v.Published? ==> v.file == v.accepted && !v.faulted
  }

  // ------------------------------------------------------------------ steps

  datatype Action =
    | Push(b: Block)
    | ProducerStep
    | WriterStep(ok: bool)
    | Start
    | Stop
    | ControlStep(ok: bool, capacity: nat)

  ghost function Produce(s: Sane): State
  {
    match s.producer
    case Idle => s
    case SawRecording(b) => s.(producer := if s.accepting then Entering(b) else Idle)
    case Entering(b) => s.(active := s.active + 1, producer := Rechecking(b))
    case Rechecking(b) => s.(producer := if s.accepting then Inside(b) else BackingOut)
    case BackingOut => s.(active := s.active - 1, producer := Idle)
    case Inside(b) =>
      // A session stays below 2^32 blocks (265 days); see SlotsDistinctIffDivides.
      if |s.accepted| + 1 >= TWO32 then s
      else s.(producer := if |s.accepted| - s.core.read >= s.core.capacity then Leaving else Copying(b))
    case Copying(b) =>
      SlotBelowWrap(|s.accepted|, s.core.capacity);
      s.(slots := s.slots[Slot(|s.accepted|, s.core.capacity) := Clamp(b)], producer := Publishing(b))
    case Publishing(b) =>
      s.(accepted := s.accepted + [Clamp(b)], producer := Leaving)
    case Leaving => s.(active := s.active - 1, producer := Idle)
  }

  /** The writer's next access; it enters the failure path on a write or checkpoint error. */
  function WriterNext(w: Writer, phase: Phase, read: nat, accepted: nat, ok: bool): Writer {
    match w
    case NoWriter => NoWriter
    case Looping => if phase == Recording || phase == Stopping then Peeking(phase) else Exiting
    case Peeking(st) => if read != accepted then Writing else if st == Stopping then Exiting else Looping
    case Writing => if ok then Consuming else FailClosing
    case Consuming => Checkpointing
    case Checkpointing => if ok then Looping else FailClosing
    case FailClosing => FailStoring
    case FailStoring => Exiting
    case Exiting => Exited
    case Exited => Exited
  }

  /** `slot` is what the ring holds at the read position, when it holds anything. */
  function WriteCore(s: Core, accepted: nat, ok: bool, slot: Block): Core {
    var fails := (s.writer.Writing? || s.writer.Checkpointing?) && !ok;
    s.(writer := WriterNext(s.writer, s.phase, s.read, accepted, ok),
       sink := if s.writer.Writing? && ok then s.sink + [slot] else s.sink,
       read := if s.writer.Consuming? then s.read + 1 else s.read,
       lastError := s.lastError || fails,
       faulted := s.faulted || fails,
       phase := if s.writer.FailStoring? then Error else s.phase,
       exitBit := s.exitBit || s.writer.Exiting?)
  }

  function Write(s: State, ok: bool): State {
    var i := if s.core.capacity == 0 then 0 else Slot(s.core.read, s.core.capacity);
    var slot := if i < |s.slots| then s.slots[i] else Block(0, []);
    s.(core := WriteCore(s.core, |s.accepted|, ok, slot),
       accepting := if s.core.writer.FailClosing? then false else s.accepting)
  }

  function SteerCore(s: Core, accepted: seq<Block>, active: nat, ok: bool, capacity: nat): Core {
    if Starts(s.control) then StartCore(s, active, ok, capacity) else StopCore(s, accepted, active, ok)
  }

  predicate Starts(c: Control) {
    || c.Allocating? || c.Opening? || c.OpenStoring? || c.Announcing? || c.Creating?
    || c.CreateClosing? || c.CreateStoring? || c.CreateFreeing?
  }

  /** audio_recorder_start: its next access, and the phase it leaves. */
  function StartNext(c: Control, phase: Phase, active: nat, ok: bool): (Control, Phase) {
    match c
    case Allocating => if ok then (Opening, phase) else (Free, Stopped)
    case Opening => if active != 0 then (Free, Stopped) else (OpenStoring, phase)
    case OpenStoring => (Announcing, phase)
    case Announcing => (Creating, Recording)
    case Creating => (if ok then Free else CreateClosing, phase)
    case CreateClosing => (CreateStoring, phase)
    case CreateStoring => (CreateFreeing, Stopped)
    case CreateFreeing => (Free, phase)
    case _ => (c, phase)
  }

  /** A ring is set up once its memory is there, and freed when the gate cannot be opened or the
      writer task cannot be created. */
  function StartCore(s: Core, active: nat, ok: bool, capacity: nat): Core {
    var (control, phase) := StartNext(s.control, s.phase, active, ok);
    var anew := s.control.Allocating? && ok;
    var frees := (s.control.Opening? && active != 0) || s.control.CreateFreeing?;
    var creates := s.control.Creating? && ok;
    s.(control := control, phase := phase,
       hasRing := if anew then true else if frees then false else s.hasRing,
       capacity := if anew then capacity else s.capacity,
       read := if anew then 0 else s.read,
       sink := if anew then [] else s.sink,
       lastError := s.lastError && !anew,
       faulted := s.faulted && !anew,
       exitBit := s.exitBit && !anew,
       writer := if creates then Looping else s.writer,
       writerHandle := s.writerHandle || creates,
       verdict := if s.control.CreateFreeing? then KeptPartial else s.verdict)
  }

  /** audio_recorder_stop. */
  function StopCore(s: Core, accepted: seq<Block>, active: nat, ok: bool): Core {
    match s.control
    case StopClosing(st) => s.(control := StopWaiting(st))
    case StopWaiting(st) => if active == 0 then s.(control := StopPublishing(st)) else s
    case StopPublishing(st) => s.(phase := if st == Recording then Stopping else s.phase, control := StopJoining)
    case StopJoining => if s.exitBit then s.(writerHandle := false, control := StopJudging) else s
    case StopJudging => s.(control := StopFinishing(!s.lastError && s.phase != Error))
    case StopFinishing(clean) =>
      s.(verdict := if clean && ok then Published(s.sink, accepted, s.faulted) else KeptPartial,
         control := StopReleasing)
    case StopReleasing => s.(hasRing := false, phase := Stopped, writer := NoWriter, control := Free)
    case _ => s
  }

  function Blank(n: nat): (slots: seq<Block>)
    ensures |slots| == n
  {
    seq(n, _ => Block(0, []))
  }

  /** The gate's flag after a step of the controlling task. */
  function GateFlag(c: Control, accepting: bool): bool {
    if c.OpenStoring? then true else if c.StopClosing? || c.CreateClosing? then false else accepting
  }

  function Steer(s: State, ok: bool, n: nat): State {
    var capacity := if n < 2 then 2 else n;
    var anew := s.core.control.Allocating? && ok;
    s.(core := SteerCore(s.core, s.accepted, s.active, ok, capacity),
       accepting := GateFlag(s.core.control, s.accepting),
       slots := if anew then Blank(capacity) else s.slots,
       accepted := if anew then [] else s.accepted,
       session := if anew then s.session + 1 else s.session,
       stranded := s.core.control.CreateFreeing? && Admitted(s.producer))
  }

  function Request(s: State, a: Action): State {
    match a
    case Push(b) =>
      if s.producer.Idle? && s.core.phase == Recording then s.(producer := SawRecording(b)) else s
    case Start =>
      if s.core.control.Free? && s.core.phase == Stopped
      then s.(core := s.core.(phase := Starting, control := Allocating)) else s
    case Stop =>
      if !s.core.control.Free? then s
      else if s.core.phase == Stopped && !s.core.hasRing then s.(accepting := false)
      else s.(core := s.core.(control := StopClosing(s.core.phase)))
    case _ => s
  }

  ghost function Step(s: Live, a: Action): State
  {
    if s.stranded then s
    else
      match a
      case ProducerStep => Produce(s)
      case WriterStep(ok) => Write(s, ok)
      case ControlStep(ok, n) => Steer(s, ok, n)
      case _ => Request(s, a)
  }

  // ------------------------------------------------------------------ every step keeps it

  lemma HeldWrite(slots: seq<Block>, c: nat, accepted: seq<Block>, read: nat, b: Block)
    requires Held(slots, c, accepted, read) && read <= |accepted| < read + c
    ensures Held(slots[Wrap(|accepted|, c) := b], c, accepted, read)
  {
    forall k | read <= k < |accepted| ensures slots[Wrap(|accepted|, c) := b][Wrap(k, c)] == accepted[k] {
      if Wrap(k, c) == Wrap(|accepted|, c) {
        WrapInjective(k, |accepted|, c);
      }
    }
  }

  lemma HeldAppend(slots: seq<Block>, c: nat, accepted: seq<Block>, read: nat, b: Block)
    requires Held(slots, c, accepted, read) && read <= |accepted| && slots[Wrap(|accepted|, c)] == b
    ensures Held(slots, c, accepted + [b], read)
  {
  }

  lemma HeldEmpty(n: nat)
    requires 0 < n
    ensures Held(Blank(n), n, [], 0)
  {
  }

  lemma CopyKeeps(s: Sane)
    requires s.producer.Copying?
    ensures !Produce(s).stranded && Sound(Produce(s))
  {
    var c := s.core;
    SlotBelowWrap(|s.accepted|, c.capacity);
    hide SessionOk, WriterOk, VerdictOk, Clamp, Held, Slot, Wrap;
    HeldWrite(s.slots, c.capacity, s.accepted, c.read, Clamp(s.producer.b));
    HeldSized(s.slots, c.capacity, s.accepted, c.read);
  }

  lemma HeldSized(slots: seq<Block>, c: nat, accepted: seq<Block>, read: nat)
    requires Held(slots, c, accepted, read)
    ensures 0 < c == |slots|
  {
  }

  lemma PublishKeeps(s: Sane)
    requires s.producer.Publishing?
    ensures !Produce(s).stranded && Sound(Produce(s))
  {
    var c := s.core;
    hide SessionOk, WriterOk, VerdictOk, Clamp, Held, Slot, Wrap;
    HeldAppend(s.slots, c.capacity, s.accepted, c.read, Clamp(s.producer.b));
    AcceptKeeps(c, s.accepted, Clamp(s.producer.b));
  }

  lemma GateStepKeeps(s: Sane)
    requires !s.producer.Copying? && !s.producer.Publishing?
    ensures !Produce(s).stranded && Sound(Produce(s))
  {
    hide SessionOk, WriterOk, VerdictOk, Clamp, Held, Slot, Wrap;
    if s.accepting { AcceptingHasRing(s); }
  }

  lemma AcceptingHasRing(s: Sane)
    requires s.accepting
    ensures s.core.hasRing
  {
    hide WriterOk, VerdictOk, RingOk;
  }

  lemma ProduceKeeps(s: Sane)
    ensures !Produce(s).stranded && Sound(Produce(s))
  {
    hide Sound, Produce;
    if s.producer.Copying? { CopyKeeps(s); } else if s.producer.Publishing? { PublishKeeps(s); } else { GateStepKeeps(s); }
  }

  /** A block accepted before the barrier disturbs neither the session nor what the writer knows. */
  lemma AcceptKeeps(c: Core, accepted: seq<Block>, b: Block)
    requires SessionOk(c, accepted) && WriterOk(c, accepted) && !Barred(c.control)
    ensures SessionOk(c, accepted + [b]) && WriterOk(c, accepted + [b])
  {
  }

  lemma WriteCoreKeeps(c: Core, accepted: seq<Block>, ok: bool, slot: Block)
    requires SessionOk(c, accepted) && WriterOk(c, accepted)
    requires c.writer.Writing? ==> slot == accepted[c.read]
    ensures var d := WriteCore(c, |accepted|, ok, slot); SessionOk(d, accepted) && WriterOk(d, accepted)
  {
    if c.writer.Writing? {
      assert accepted[..c.read + 1] == accepted[..c.read] + [slot];
    }
    assert accepted[..|accepted|] == accepted;
  }

  lemma WriterKeepsGate(c: Core, accepted: nat, ok: bool, slot: Block, accepting: bool, active: nat, p: Producer)
    requires GateOk(c.control, c.phase, accepting, active, p) && (c.phase == Stopped && c.control.Free? ==> c.writer.NoWriter?)
    ensures var d := WriteCore(c, accepted, ok, slot);
            && GateOk(d.control, d.phase, if c.writer.FailClosing? then false else accepting, active, p)
            && d.verdict == c.verdict
  {
  }

  lemma WriteKeeps(s: Sane, ok: bool)
    ensures !Write(s, ok).stranded && Sound(Write(s, ok))
  {
    var c := s.core;
    if c.writer.Writing? {
      SlotBelowWrap(c.read, c.capacity);
      assert s.slots[Wrap(c.read, c.capacity)] == s.accepted[c.read];
    }
    var i := if c.capacity == 0 then 0 else Slot(c.read, c.capacity);
    WriteCoreKeeps(c, s.accepted, ok, if i < |s.slots| then s.slots[i] else Block(0, []));
    WriteKeepsRing(s, ok);
    WriterKeepsGate(c, |s.accepted|, ok, if i < |s.slots| then s.slots[i] else Block(0, []), s.accepting, s.active, s.producer);
    hide SessionOk, RingOk, WriterOk, GateOk, Held, Slot, WriteCore;
  }

  lemma HeldConsume(slots: seq<Block>, c: nat, accepted: seq<Block>, read: nat)
    requires Held(slots, c, accepted, read)
    ensures Held(slots, c, accepted, read + 1)
  {
  }

  lemma WriteKeepsRing(s: Sane, ok: bool)
    ensures var c := Write(s, ok).core; RingOk(c.hasRing, c.capacity, c.read, s.accepted, s.slots, s.producer)
  {
    if s.core.hasRing {
      HeldConsume(s.slots, s.core.capacity, s.accepted, s.core.read);
    }
    hide Clamp, SessionOk, Slot, Held;
  }

  lemma StartCoreKeeps(c: Core, accepted: seq<Block>, active: nat, ok: bool, n: nat)
    requires SessionOk(c, accepted) && WriterOk(c, accepted) && VerdictOk(c.verdict) && Starts(c.control)
    ensures var d := StartCore(c, active, ok, n);
            var after := if c.control.Allocating? && ok then [] else accepted;
            SessionOk(d, after) && WriterOk(d, after) && VerdictOk(d.verdict)
  {
    match c.control
    case Allocating =>
    case Opening =>
    case Creating =>
    case _ =>
  }

  lemma StopCoreKeeps(c: Core, accepted: seq<Block>, active: nat, ok: bool)
    requires SessionOk(c, accepted) && WriterOk(c, accepted) && VerdictOk(c.verdict)
    ensures var d := StopCore(c, accepted, active, ok);
            SessionOk(d, accepted) && WriterOk(d, accepted) && VerdictOk(d.verdict)
  {
    match c.control
    case StopWaiting(_) =>
    case StopJoining =>
    case StopFinishing(_) =>
    case _ =>
  }

  lemma SteerCoreKeeps(c: Core, accepted: seq<Block>, active: nat, ok: bool, n: nat)
    requires SessionOk(c, accepted) && WriterOk(c, accepted) && VerdictOk(c.verdict)
    ensures var d := SteerCore(c, accepted, active, ok, n);
            var after := if c.control.Allocating? && ok then [] else accepted;
            SessionOk(d, after) && WriterOk(d, after) && VerdictOk(d.verdict)
  {
    hide SessionOk, WriterOk, VerdictOk, StartCore, StopCore;
    if Starts(c.control) { StartCoreKeeps(c, accepted, active, ok, n); } else { StopCoreKeeps(c, accepted, active, ok); }
  }

  lemma StartKeepsGate(c: Core, accepting: bool, active: nat, ok: bool, n: nat, p: Producer)
    requires GateOk(c.control, c.phase, accepting, active, p) && Starts(c.control)
    requires (c.control.CreateFreeing? ==> !Admitted(p)) && (c.control.Creating? ==> c.phase == Recording)
    ensures var d := StartCore(c, active, ok, n); GateOk(d.control, d.phase, GateFlag(c.control, accepting), active, p)
  {
  }

  lemma StopKeepsGate(c: Core, accepted: seq<Block>, accepting: bool, active: nat, ok: bool, p: Producer)
    requires GateOk(c.control, c.phase, accepting, active, p) && !Starts(c.control)
    ensures var d := StopCore(c, accepted, active, ok); GateOk(d.control, d.phase, GateFlag(c.control, accepting), active, p)
  {
  }

  lemma SteerKeepsGate(s: Sane, ok: bool, n: nat)
    requires !Steer(s, ok, n).stranded
    ensures var t := Steer(s, ok, n); GateOk(t.core.control, t.core.phase, t.accepting, t.active, t.producer)
  {
    assert s.core.control.Creating? ==> s.core.phase == Recording;
    hide RingOk, WriterOk, VerdictOk, SessionOk, GateOk, StartCore, StopCore, Blank;
    if Starts(s.core.control) {
      StartKeepsGate(s.core, s.accepting, s.active, ok, if n < 2 then 2 else n, s.producer);
    } else {
      StopKeepsGate(s.core, s.accepted, s.accepting, s.active, ok, s.producer);
    }
  }

  lemma SteerKeepsRing(s: Sane, ok: bool, n: nat)
    requires !Steer(s, ok, n).stranded
    ensures var t := Steer(s, ok, n); RingOk(t.core.hasRing, t.core.capacity, t.core.read, t.accepted, t.slots, t.producer)
  {
    HeldEmpty(if n < 2 then 2 else n);
    hide Held, Blank, WriterOk, VerdictOk, Clamp;
  }

  lemma SteerKeeps(s: Sane, ok: bool, n: nat)
    ensures Inv(Steer(s, ok, n))
  {
    hide GateOk, RingOk, WriterOk, SessionOk, VerdictOk, SteerCore;
    SteerCoreKeeps(s.core, s.accepted, s.active, ok, if n < 2 then 2 else n);
    if Steer(s, ok, n).stranded {
      FreeingDrops(s.core, s.accepted, s.active, ok, if n < 2 then 2 else n);
    } else {
      SteerKeepsGate(s, ok, n);
      SteerKeepsRing(s, ok, n);
    }
  }

  lemma FreeingDrops(c: Core, accepted: seq<Block>, active: nat, ok: bool, n: nat)
    requires c.control.CreateFreeing? && SessionOk(c, accepted)
    ensures var d := SteerCore(c, accepted, active, ok, n); !d.hasRing && d.writer.NoWriter? && VerdictOk(d.verdict)
  {
  }

  lemma RequestKeeps(s: Sane, a: Action)
    ensures !Request(s, a).stranded && Sound(Request(s, a))
  {
    hide Held, VerdictOk, Clamp;
  }

  lemma StepKeeps(s: Live, a: Action)
    ensures Inv(Step(s, a))
  {
    hide Sound, Produce, Write, Steer, Request;
    if !s.stranded {
      match a {
        case ProducerStep => ProduceKeeps(s);
        case WriterStep(ok) => WriteKeeps(s, ok);
        case ControlStep(ok, n) => SteerKeeps(s, ok, n);
        case _ => RequestKeeps(s, a);
      }
    }
  }

  // ------------------------------------------------------------------ runs

  ghost predicate Boots(s: State) {
    && s.core.phase == Stopped && s.core.control.Free? && s.core.writer.NoWriter? && s.core.verdict.NoVerdict?
    && !s.core.hasRing && !s.core.writerHandle && !s.core.lastError && !s.core.faulted
    && s.core.read == 0 && s.accepted == [] && s.core.sink == []
    && !s.accepting && s.active == 0 && s.producer.Idle? && !s.stranded
  }

  ghost function Run(s: Live, actions: seq<Action>): State
    decreases actions
  {
    if actions == [] then s
    else
      StepKeeps(s, actions[0]);
      Run(Step(s, actions[0]), actions[1..])
  }

  lemma {:induction false} RunKeeps(s: Live, actions: seq<Action>)
    ensures Inv(Run(s, actions))
    decreases actions
  {
    hide Inv, Step;
    if actions != [] {
      StepKeeps(s, actions[0]);
      RunKeeps(Step(s, actions[0]), actions[1..]);
    }
  }

  /** Over every interleaving of every number of sessions, with allocation, task creation, writes,
      checkpoints and finalising failing at will:
      - a recording published as an ordinary file holds exactly the accepted blocks, in order, and
        its session had no fault, even where STOPPING overwrote ERROR;
      - a writer that has left without a fault has written every accepted block, and no producer is
        or will be admitted in that session;
      - a producer inside the gate has a ring to write to, exactly until a failed task creation
        frees the ring under it. */
  lemma {:induction false} StopBarrierHolds(s0: State, actions: seq<Action>)
    requires Boots(s0)
    ensures Inv(s0)
    ensures var s := Run(s0, actions);
            && (s.core.verdict.Published? ==> s.core.verdict.file == s.core.verdict.accepted && !s.core.verdict.faulted)
            && (s.core.writer.Exited? && !s.core.faulted ==>
                  s.core.sink == s.accepted && !s.accepting && !Admitted(s.producer) && Barred(s.core.control))
            && ((Admitted(s.producer) ==> s.core.hasRing) <==> !s.stranded)
  {
    BootsKeeps(s0);
    RunKeeps(s0, actions);
    hide Held, Clamp, Run;
  }

  // ------------------------------------------------------------------ when task creation fails

  /** At some point of the run a producer is inside the gate and there is no ring. */
  ghost predicate LosesRing(s: Live, actions: seq<Action>)
    decreases actions
  {
    || (Admitted(s.producer) && !s.core.hasRing)
    || (actions != [] && (StepKeeps(s, actions[0]); LosesRing(Step(s, actions[0]), actions[1..])))
  }

  /** Some step of the run frees the ring after a failed creation while the gate, as is_quiescent
      reads it, is not empty, and the producer it counts is past its second look at the flag. */
  ghost predicate FreesTooEarly(s: Live, actions: seq<Action>)
    decreases actions
  {
    && actions != []
    && (|| (actions[0].ControlStep? && s.core.control.CreateFreeing? && s.active != 0 && Admitted(s.producer))
        || (StepKeeps(s, actions[0]); FreesTooEarly(Step(s, actions[0]), actions[1..])))
  }

  lemma RingUntilStranded(s: Live)
    ensures (Admitted(s.producer) && !s.core.hasRing) <==> s.stranded
  {
    hide Held, Clamp, WriterOk, SessionOk, VerdictOk, GateOk;
  }

  lemma StrandingStep(s: Live, a: Action)
    requires !s.stranded
    ensures Step(s, a).stranded <==>
              a.ControlStep? && s.core.control.CreateFreeing? && s.active != 0 && Admitted(s.producer)
  {
    hide Held, Clamp, RingOk, WriterOk, SessionOk, VerdictOk, Slot;
  }

  /** In every run a producer inside the gate has a ring at every point, exactly if no step frees
      the ring too early. Had the cleanup waited for an empty gate, as STOP does, none would. */
  lemma {:induction false} RingLostExactly(s: Live, actions: seq<Action>)
    requires !s.stranded
    ensures LosesRing(s, actions) <==> FreesTooEarly(s, actions)
    decreases actions
  {
    hide Inv, Step;
    RingUntilStranded(s);
    if actions != [] {
      StepKeeps(s, actions[0]);
      StrandingStep(s, actions[0]);
      var t := Step(s, actions[0]);
      if t.stranded {
        RingUntilStranded(t);
      } else {
        RingLostExactly(t, actions[1..]);
      }
    }
  }

  /** A producer that is not inside when the gate is closed never gets inside before the free. */
  lemma NobodyEntersAfterClose(s: Live, a: Action)
    requires !s.stranded && !Admitted(s.producer)
    requires s.core.control.CreateStoring? || s.core.control.CreateFreeing?
    ensures !Admitted(Step(s, a).producer) && !Step(s, a).stranded
  {
    hide Held, Clamp, RingOk, WriterOk, VerdictOk, Slot;
  }

  // ------------------------------------------------------------------ after a clean exit

  /** The session is over for producers: none is inside and none will be before the next ring. */
  ghost predicate Over(s: State) {
    && !s.accepting && !Admitted(s.producer) && !s.stranded
    && (AfterBarrier(s.core.control) || s.core.control.Allocating? || (s.core.control.Free? && s.core.phase == Stopped))
  }

  lemma WriterKeepsControl(c: Core, accepted: nat, ok: bool, slot: Block)
    ensures WriteCore(c, accepted, ok, slot).control == c.control
    ensures c.writer.NoWriter? ==> WriteCore(c, accepted, ok, slot).phase == c.phase
  {
  }

  lemma OverProduces(s: Sane)
    requires Over(s)
    ensures Over(Produce(s)) && Produce(s).accepted == s.accepted
  {
    hide Held, Clamp, RingOk, VerdictOk, SessionOk, WriterOk, GateOk, Slot;
  }

  lemma OverWrites(s: Sane, ok: bool)
    requires Over(s)
    ensures Over(Write(s, ok))
  {
    hide WriteCore, RingOk, WriterOk, VerdictOk, GateOk, Slot;
    var i := if s.core.capacity == 0 then 0 else Slot(s.core.read, s.core.capacity);
    WriterKeepsControl(s.core, |s.accepted|, ok, if i < |s.slots| then s.slots[i] else Block(0, []));
  }

  lemma OverSteers(s: Sane, ok: bool, n: nat)
    requires Over(s) && Steer(s, ok, n).session == s.session
    ensures Over(Steer(s, ok, n)) && Steer(s, ok, n).accepted == s.accepted
  {
    hide RingOk, WriterOk, VerdictOk, GateOk, SessionOk, Blank;
    if Starts(s.core.control) {} else {}
  }

  lemma OverRequests(s: Sane, a: Action)
    requires Over(s)
    ensures Over(Request(s, a)) && Request(s, a).accepted == s.accepted
  {
    hide RingOk, WriterOk, VerdictOk, GateOk, Held;
  }

  lemma OverStays(s: Live, a: Action)
    requires Over(s) && Step(s, a).session == s.session
    ensures Over(Step(s, a)) && Step(s, a).accepted == s.accepted
  {
    match a
    case ProducerStep => OverProduces(s);
    case WriterStep(ok) => OverWrites(s, ok);
    case ControlStep(ok, n) => OverSteers(s, ok, n);
    case _ => OverRequests(s, a);
    hide Sound, Over, Produce, WriteCore, Steer, Request;
  }

  lemma SessionsGrow(s: Live, a: Action)
    ensures Step(s, a).session >= s.session
  {
    hide Sound, SteerCore, WriteCore, Blank, Slot, Clamp;
  }

  lemma {:induction false} RunsGrow(s: Live, actions: seq<Action>)
    ensures Run(s, actions).session >= s.session
    decreases actions
  {
    hide Inv, Step;
    if actions != [] {
      StepKeeps(s, actions[0]);
      SessionsGrow(s, actions[0]);
      RunsGrow(Step(s, actions[0]), actions[1..]);
    }
  }

  lemma {:induction false} OverAccepts(s: Live, actions: seq<Action>)
    requires Over(s) && Run(s, actions).session == s.session
    ensures Run(s, actions).accepted == s.accepted
    decreases actions
  {
    hide Inv, Step, Over;
    if actions != [] {
      StepKeeps(s, actions[0]);
      SessionsGrow(s, actions[0]);
      RunsGrow(Step(s, actions[0]), actions[1..]);
      OverStays(s, actions[0]);
      OverAccepts(Step(s, actions[0]), actions[1..]);
    }
  }

  /** From a clean exit of the writer to the next session's ring no run accepts a block. */
  lemma {:induction false} NothingAcceptedAfterCleanExit(s: Live, actions: seq<Action>)
    requires s.core.writer.Exited? && !s.core.faulted
    requires Run(s, actions).session == s.session
    ensures Run(s, actions).accepted == s.accepted
  {
    hide Held, Clamp, RingOk, VerdictOk, Run;
    assert Over(s);
    OverAccepts(s, actions);
  }

  // ------------------------------------------------------------------ what becomes of a block

  /** The block a push still carries. */
  function Carried(p: Producer): seq<Block> {
    match p
    case SawRecording(b) => [b]
    case Entering(b) => [b]
    case Rechecking(b) => [b]
    case Inside(b) => [b]
    case Copying(b) => [b]
    case Publishing(b) => [b]
    case _ => []
  }

  predicate Full(s: State) { |s.accepted| - s.core.read >= s.core.capacity }

  /** A push that meets RECORDING carries its block until it joins the accepted ones, cut to a slot,
      or is turned away: at the gate, and then the gate was closed at that look, or inside, and then
      the ring was full at that look. Nothing else changes what was accepted but the next ring. */
  ghost predicate Fair(s: State, a: Action, t: State) {
    && (a.Push? && s.producer.Idle? && s.core.phase == Recording ==> Carried(t.producer) == [a.b])
    && (Carried(s.producer) != [] && Carried(t.producer) != Carried(s.producer) ==>
          a.ProducerStep? && Carried(t.producer) == []
          && (|| (s.producer.Publishing? && t.accepted == s.accepted + [Clamp(s.producer.b)])
              || (t.accepted == s.accepted && !Admitted(s.producer) && !s.accepting)
              || (t.accepted == s.accepted && s.producer.Inside? && Full(s))))
    && (t.accepted != s.accepted ==>
          (t.session == s.session + 1 && t.accepted == []) || (s.producer.Publishing? && a.ProducerStep?))
  }

  lemma ProduceIsFair(s: Sane)
    ensures Fair(s, ProducerStep, Produce(s))
  {
    hide Sound, Clamp, Slot;
  }

  lemma StepIsFair(s: Live, a: Action)
    requires !s.stranded
    ensures Fair(s, a, Step(s, a))
  {
    if a.ProducerStep? { ProduceIsFair(s); }
    hide Sound, Produce, WriteCore, SteerCore, Clamp, Slot, Blank;
  }

  /** In every run, in each of its states, every push is treated so. */
  lemma EveryPushIsFair(s0: State, actions: seq<Action>, a: Action)
    requires Boots(s0)
    ensures Inv(s0) && Inv(Run(s0, actions))
    ensures var s := Run(s0, actions); !s.stranded ==> Fair(s, a, Step(s, a))
  {
    BootsKeeps(s0);
    RunKeeps(s0, actions);
    hide Boots, Run, Fair, Step, Sound;
    if !Run(s0, actions).stranded { StepIsFair(Run(s0, actions), a); }
  }

  /** The block a step takes into the ring: one that has found room. */
  ghost function Taken(s: State, a: Action): seq<Block> {
    if a.ProducerStep? && !s.stranded && s.producer.Inside? && !Full(s) && |s.accepted| + 1 < TWO32
    then [Clamp(s.producer.b)] else []
  }

  function Underway(p: Producer): seq<Block> {
    if p.Copying? || p.Publishing? then [Clamp(p.b)] else []
  }

  ghost function TakenIn(s: Live, actions: seq<Action>): seq<Block>
    decreases actions
  {
    if actions == [] then []
    else
      StepKeeps(s, actions[0]);
      Taken(s, actions[0]) + TakenIn(Step(s, actions[0]), actions[1..])
  }

  lemma StepTakes(s: Live, a: Action)
    requires Step(s, a).session == s.session
    ensures Step(s, a).accepted + Underway(Step(s, a).producer) == s.accepted + Underway(s.producer) + Taken(s, a)
  {
    hide Sound, WriteCore, SteerCore, Clamp, Slot, Blank;
  }

  /** Over any part of a session the accepted blocks grow by exactly those that found room, in
      order; the last may still be on its way into the ring. */
  lemma {:induction false} EveryRunAcceptsWhatFinds(s: Live, actions: seq<Action>)
    requires Run(s, actions).session == s.session
    ensures Run(s, actions).accepted + Underway(Run(s, actions).producer)
         == s.accepted + Underway(s.producer) + TakenIn(s, actions)
    decreases actions
  {
    hide Inv, Step, Taken, Underway;
    if actions != [] {
      StepKeeps(s, actions[0]);
      SessionsGrow(s, actions[0]);
      RunsGrow(Step(s, actions[0]), actions[1..]);
      StepTakes(s, actions[0]);
      EveryRunAcceptsWhatFinds(Step(s, actions[0]), actions[1..]);
    }
  }

  // ------------------------------------------------------------------ a clean stop publishes

  /** The card refuses a write or a checkpoint. */
  predicate CardFails(s: State, a: Action) {
    a.WriterStep? && !a.ok && !s.stranded && (s.core.writer.Writing? || s.core.writer.Checkpointing?)
  }

  ghost predicate CardHolds(s: Live, actions: seq<Action>)
    decreases actions
  {
    actions == [] || (!CardFails(s, actions[0]) && (StepKeeps(s, actions[0]); CardHolds(Step(s, actions[0]), actions[1..])))
  }

  lemma SteeringFaultsNothing(c: Core, accepted: seq<Block>, active: nat, ok: bool, n: nat)
    ensures SteerCore(c, accepted, active, ok, n).lastError ==> c.lastError
  {
    hide StartNext;
  }

  lemma ProducingKeepsCore(s: Sane)
    ensures Produce(s).core == s.core
  {
    hide Sound, Slot, Clamp;
  }

  lemma FaultsComeFromTheCard(s: Live, a: Action)
    requires !s.core.lastError && !CardFails(s, a)
    ensures !Step(s, a).core.lastError
  {
    hide Sound, Produce, SteerCore, WriterNext, Blank, Slot;
    if !s.stranded && a.ProducerStep? { ProducingKeepsCore(s); }
    if a.ControlStep? {
      SteeringFaultsNothing(s.core, s.accepted, s.active, a.ok, if a.capacity < 2 then 2 else a.capacity);
    }
  }

  lemma {:induction false} NoFaultWithoutTheCard(s: Live, actions: seq<Action>)
    requires !s.core.lastError && CardHolds(s, actions)
    ensures !Run(s, actions).core.lastError
    decreases actions
  {
    hide Inv, Step, CardFails;
    if actions != [] {
      StepKeeps(s, actions[0]);
      FaultsComeFromTheCard(s, actions[0]);
      NoFaultWithoutTheCard(Step(s, actions[0]), actions[1..]);
    }
  }

  /** A stop that gets to the end publishes exactly the accepted blocks, if and only if the session
      had no fault and finalising succeeds. */
  lemma FinishPublishesExactly(s: Live, ok: bool, n: nat)
    requires !s.stranded && s.core.control.StopFinishing?
    ensures Step(s, ControlStep(ok, n)).core.verdict
         == if !s.core.lastError && ok then Published(s.accepted, s.accepted, false) else KeptPartial
  {
    hide RingOk, GateOk, VerdictOk, Blank;
  }

  /** In every run in which the card refuses nothing, whatever else fails and however the tasks are
      interleaved, a stop that gets to its end publishes every block accepted in the session. */
  lemma {:induction false} CleanStopPublishes(s0: State, actions: seq<Action>, n: nat)
    requires Boots(s0)
    ensures Inv(s0) && Inv(Run(s0, actions))
    ensures var s := Run(s0, actions);
            CardHolds(s0, actions) && !s.stranded && s.core.control.StopFinishing? ==>
              Step(s, ControlStep(true, n)).core.verdict == Published(s.accepted, s.accepted, false)
  {
    BootsKeeps(s0);
    RunKeeps(s0, actions);
    assert !s0.core.lastError;
    hide Boots, Run, Step, Sound, CardHolds;
    var s := Run(s0, actions);
    if CardHolds(s0, actions) && !s.stranded && s.core.control.StopFinishing? {
      NoFaultWithoutTheCard(s0, actions);
      FinishPublishesExactly(s, true, n);
    }
  }

  // ------------------------------------------------------------------ nothing hangs

  function PushLeft(p: Producer): nat {
    match p
    case Idle => 0
    case Leaving => 1
    case BackingOut => 1
    case Publishing(_) => 2
    case Copying(_) => 3
    case Inside(_) => 4
    case Rechecking(_) => 5
    case Entering(_) => 6
    case SawRecording(_) => 7
  }

  function StopLeft(c: Control): nat {
    match c
    case StopClosing(_) => 7
    case StopWaiting(_) => 6
    case StopPublishing(_) => 5
    case StopJoining => 4
    case StopJudging => 3
    case StopFinishing(_) => 2
    case StopReleasing => 1
    case _ => 0
  }

  /** While the controlling task waits for the writer, what the writer still has to do: five accesses
      for each block not yet consumed, and those of its current round and of leaving. */
  function WriterLeft(w: Writer, unread: int): int {
    match w
    case Checkpointing => 5 * unread + 7
    case Looping => 5 * unread + 6
    case Peeking(st) => 5 * unread + (if st == Stopping then 5 else 7)
    case Writing => 5 * unread + 4
    case Consuming => 5 * unread + 3
    case FailClosing => 3
    case FailStoring => 2
    case Exiting => 1
    case _ => 0
  }

  lemma PushGetsThere(s: Sane)
    requires !s.producer.Idle? && |s.accepted| + 1 < TWO32
    ensures PushLeft(Produce(s).producer) < PushLeft(s.producer)
  {
    hide Sound, Slot, Clamp;
  }

  /** Every access of a stop leaves less of the stop, but for its two waits. In the first the producer
      is not idle, so PushGetsThere ends it; in the second every access of the writer leaves less for
      the writer to do, down to its exit. */
  lemma StopGetsThere(s: Live, ok: bool, n: nat)
    requires !s.stranded && 0 < StopLeft(s.core.control)
    ensures var c := s.core.control;
            || StopLeft(Steer(s, ok, n).core.control) < StopLeft(c)
            || (c.StopWaiting? && !s.producer.Idle?)
            || (c.StopJoining? && !s.core.writer.Exited?)
    ensures s.core.control.StopJoining? && !s.core.writer.Exited? ==>
              var t := Write(s, ok);
              0 <= WriterLeft(t.core.writer, |t.accepted| - t.core.read) < WriterLeft(s.core.writer, |s.accepted| - s.core.read)
  {
    assert s.core.control.StopWaiting? && s.active != 0 ==> !s.producer.Idle?;
    hide Sound, Blank, Slot, Clamp, WriterLeft, WriteCore, StopLeft, SteerCore;
    if s.core.control.StopJoining? { JoiningSettles(s, ok); }
    if !(s.core.control.StopWaiting? && s.active != 0) && !(s.core.control.StopJoining? && !s.core.exitBit) {
      StopCoreAdvances(s.core, s.accepted, s.active, ok, if n < 2 then 2 else n);
    }
  }

  lemma StopCoreAdvances(c: Core, accepted: seq<Block>, active: nat, ok: bool, n: nat)
    requires 0 < StopLeft(c.control) && !(c.control.StopWaiting? && active != 0) && !(c.control.StopJoining? && !c.exitBit)
    ensures StopLeft(SteerCore(c, accepted, active, ok, n).control) < StopLeft(c.control)
  {
    assert !Starts(c.control);
    hide Starts, StartCore;
  }

  lemma JoiningSettles(s: Live, ok: bool)
    requires !s.stranded && s.core.control.StopJoining?
    ensures s.core.writer.Exited? ==> s.core.exitBit
    ensures !s.core.writer.Exited? ==>
              var t := Write(s, ok);
              0 <= WriterLeft(t.core.writer, |t.accepted| - t.core.read) < WriterLeft(s.core.writer, |s.accepted| - s.core.read)
  {
    hide GateOk, VerdictOk, Slot;
  }

  /** How many accesses a writer at work is away from consuming a block. */
  function DrainLeft(w: Writer): nat {
    match w
    case Checkpointing => 5
    case Looping => 4
    case Peeking(_) => 3
    case Writing => 2
    case Consuming => 1
    case _ => 0
  }

  /** While a session records or stops and a block is waiting, every access of the writer brings it
      nearer to consuming that block, or the card refuses and the session is faulted. */
  lemma WriterDrains(s: Live, ok: bool)
    requires !s.stranded && s.core.read < |s.accepted| && 0 < DrainLeft(s.core.writer)
    requires s.core.phase == Recording || s.core.phase == Stopping
    ensures var t := Write(s, ok);
            || (t.core.read == s.core.read && 0 < DrainLeft(t.core.writer) < DrainLeft(s.core.writer))
            || (t.core.read == s.core.read + 1 && t.core.sink == s.accepted[..t.core.read])
            || (CardFails(s, WriterStep(ok)) && t.core.lastError)
  {
    hide GateOk, RingOk, SessionOk, VerdictOk, Slot;
  }

  lemma RunCons(s: Live, a: Action, rest: seq<Action>)
    ensures Inv(Step(s, a)) && Run(s, [a] + rest) == Run(Step(s, a), rest)
  {
    StepKeeps(s, a);
    assert ([a] + rest)[1..] == rest;
    hide Inv, Step;
  }

  lemma {:induction false} RunConcat(s: Live, a: seq<Action>, b: seq<Action>)
    ensures Inv(Run(s, a)) && Run(s, a + b) == Run(Run(s, a), b)
    decreases a
  {
    hide Inv, Step;
    RunKeeps(s, a);
    if a == [] {
      assert a + b == b;
    } else {
      assert (a + b)[1..] == a[1..] + b;
      StepKeeps(s, a[0]);
      RunConcat(Step(s, a[0]), a[1..], b);
    }
  }

  /** One more step of the controlling task towards task creation. */
  lemma StartStep(s: Live, rest: seq<Action>)
    requires !s.stranded && s.producer.Idle? && s.active == 0
    requires s.core.control.Allocating? || s.core.control.Opening? || s.core.control.OpenStoring? || s.core.control.Announcing?
    ensures var c := ControlStep(true, 2);
            var t := Step(s, c);
            && Inv(t) && Run(s, [c] + rest) == Run(t, rest)
            && !t.stranded && t.producer.Idle? && t.active == 0
            && (t.core.control, t.core.phase) == StartNext(s.core.control, s.core.phase, 0, true)
            && t.accepting == GateFlag(s.core.control, s.accepting)
  {
    hide Run;
    RunCons(s, ControlStep(true, 2), rest);
    hide Sound, Blank;
  }

  lemma StartBegins(s0: State, rest: seq<Action>)
    requires Boots(s0)
    ensures Inv(s0)
    ensures var t := Step(s0, Start);
            && Inv(t) && Run(s0, [Start] + rest) == Run(t, rest)
            && !t.stranded && t.producer.Idle? && t.active == 0 && t.core.control.Allocating?
  {
    BootsKeeps(s0);
    hide Run;
    RunCons(s0, Start, rest);
  }

  lemma ReachesCreate(s0: State)
    requires Boots(s0)
    ensures Inv(s0)
    ensures var c := ControlStep(true, 2);
            var s := Run(s0, [Start] + ([c] + ([c] + ([c] + ([c] + [])))));
            !s.stranded && s.core.control.Creating? && s.core.phase == Recording && s.accepting && s.producer.Idle?
  {
    hide Inv, Run, Step, Boots;
    var c := ControlStep(true, 2);
    StartBegins(s0, [c] + ([c] + ([c] + ([c] + []))));
    var s1 := Step(s0, Start);
    StartStep(s1, [c] + ([c] + ([c] + [])));
    var s2 := Step(s1, c);
    StartStep(s2, [c] + ([c] + []));
    var s3 := Step(s2, c);
    StartStep(s3, [c] + []);
    var s4 := Step(s3, c);
    StartStep(s4, []);
    RunNone(Step(s4, c));
  }

  lemma RunNone(s: Live)
    ensures Run(s, []) == s
  {
  }

  /** The producer can be inside at that point: it enters between RECORDING and the task creation. */
  lemma {:induction false} ProducerCanBeInsideAtCreate(s0: State, b: Block) returns (actions: seq<Action>)
    requires Boots(s0)
    ensures Inv(s0)
    ensures var s := Run(s0, actions); !s.stranded && s.core.control.Creating? && Admitted(s.producer)
  {
    hide Inv, Boots, Run;
    ReachesCreate(s0);
    var c := ControlStep(true, 2);
    var start := [Start] + ([c] + ([c] + ([c] + ([c] + []))));
    var enter := [Push(b), ProducerStep, ProducerStep, ProducerStep];
    RunConcat(s0, start, enter);
    EntersFrom(Run(s0, start), b);
    actions := start + enter;
  }

  /** And then the failing creation strands it. */
  lemma {:induction false} ProducerCanBeStranded(s0: State, b: Block) returns (actions: seq<Action>)
    requires Boots(s0)
    ensures Inv(s0)
    ensures Run(s0, actions).stranded
  {
    hide Inv, Boots, Run;
    var before := ProducerCanBeInsideAtCreate(s0, b);
    var s := Run(s0, before);
    RunKeeps(s0, before);
    var c := ControlStep(false, 2);
    RunConcat(s0, before, [c] + ([c] + ([c] + ([c] + []))));
    CleanupStrands(s);
    actions := before + ([c] + ([c] + ([c] + ([c] + []))));
  }

  lemma CleanupStrands(s: Live)
    requires !s.stranded && s.core.control.Creating? && Admitted(s.producer)
    ensures var c := ControlStep(false, 2); Run(s, [c] + ([c] + ([c] + ([c] + [])))).stranded
  {
    hide Held, Clamp, RingOk, WriterOk, SessionOk, GateOk, Run;
    var c := ControlStep(false, 2);
    RunCons(s, c, [c] + ([c] + ([c] + [])));
    var s1 := Step(s, c);
    assert !s1.stranded && s1.core.control.CreateClosing? && s1.producer == s.producer;
    RunCons(s1, c, [c] + ([c] + []));
    var s2 := Step(s1, c);
    assert !s2.stranded && s2.core.control.CreateStoring? && s2.producer == s.producer;
    RunCons(s2, c, [c] + []);
    var s3 := Step(s2, c);
    assert !s3.stranded && s3.core.control.CreateFreeing? && s3.producer == s.producer;
    RunCons(s3, c, []);
    RunNone(Step(s3, c));
  }

  lemma BootsKeeps(s: State)
    requires Boots(s)
    ensures Inv(s)
  {
  }

  lemma EntersFrom(s: Live, b: Block)
    requires !s.stranded && s.core.control.Creating? && s.core.phase == Recording && s.accepting && s.producer.Idle?
    ensures var t := Run(s, [Push(b), ProducerStep, ProducerStep, ProducerStep]);
            !t.stranded && t.core.control.Creating? && Admitted(t.producer)
  {
    hide Held, Clamp, RingOk, WriterOk, SessionOk, VerdictOk;
    var p := ProducerStep;
    RunCons(s, Push(b), [p, p, p]);
    var s1 := Step(s, Push(b));
    RunCons(s1, p, [p, p]);
    var s2 := Step(s1, p);
    RunCons(s2, p, [p]);
    var s3 := Step(s2, p);
    RunCons(s3, p, []);
    assert [Push(b)] + [p, p, p] == [Push(b), p, p, p];
    assert [p] + [p, p] == [p, p, p] && [p] + [p] == [p, p] && [p] + [] == [p];
    assert Run(Step(s3, p), []) == Step(s3, p);
    hide Run;
  }
}
