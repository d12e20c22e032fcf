/** The PCM timeline under concurrency: the decoder pushes while the output task pops and reads at
    random, one shared-memory access at a time, in every interleaving.

    Registers carry their words as the code stores them, and beside them what is only needed to
    speak about them: the true epoch, the number of version bumps and every position held. */
module TimelineInterleaving {
  import opened Wrappers
  import opened Audio
  import opened Words
  import opened PcmTimeline

  // ------------------------------------------------------------------ cursors

  /** Where a cursor_store_next stands. `Settled` when none is in flight. */
  datatype Store = Settled | Bumped | EpochWritten | LowWritten

  datatype Register = Register(epoch: u32, low: u32, version: u32,
                               hi: nat, bumps: nat, base: int, held: seq<nat>) {
    /** The position: it changes when the low word is stored. */
    function At(): nat { hi * 0x1_0000_0000 + low }

    ghost predicate Ok(st: Store) {
      && hi < TWO31 && version == Wrap(bumps, TWO32)
      && |held| > 0 && held[|held| - 1] == At()
      && match st
         case Settled => epoch == hi && bumps == 2 * (base + hi)
         case Bumped => low == TWO32 - 1 && epoch == hi && bumps == 2 * (base + hi) + 1
         case EpochWritten => low == TWO32 - 1 && epoch == hi + 1 && bumps == 2 * (base + hi) + 1
         case LowWritten => low == 0 && epoch == hi && 0 < hi && bumps == 2 * (base + hi) - 1
    }
  }

  /** One access of cursor_store_next by the cursor's owner; the flag tells that it was the last. */
  function Advance(r: Register, st: Store): (Register, Store, bool) {
    match st
    case Settled =>
      if r.low + 1 < TWO32 then
        (r.(low := r.low + 1, held := r.held + [r.At() + 1]), Settled, true)
      else
        (r.(version := Add32(r.version, 1), bumps := r.bumps + 1), Bumped, false)
    case Bumped => (r.(epoch := Add32(r.epoch, 1)), EpochWritten, false)
    case EpochWritten => (r.(low := 0, hi := r.hi + 1, held := r.held + [(r.hi + 1) * 0x1_0000_0000]), LowWritten, false)
    case LowWritten => (r.(version := Add32(r.version, 1), bumps := r.bumps + 1), Settled, true)
  }

  /** The store passes through its stages and moves the cursor by one, exactly once: at the end if
      it began settled, else when the low word goes from all ones to zero. */
  lemma AdvanceOk(r: Register, st: Store)
    requires r.Ok(st) && (st != LowWritten ==> r.At() + 1 < TWO63)
    ensures var (r', st', done) := Advance(r, st);
            && r'.Ok(st') && r'.base == r.base && r.bumps <= r'.bumps && r.held <= r'.held
            && (done <==> st' == Settled)
            && (st == Bumped || st == EpochWritten ==> !done) && (st == LowWritten ==> done)
            && r'.At() == r.At() + (if (st == Settled && done) || st == EpochWritten then 1 else 0)
            && (st' == LowWritten <==> st == EpochWritten)
  {
    WrapMove(r.bumps, 1, TWO32);
  }

  /** cursor_store_absolute by an owner nobody watches. */
  function StoreAt(r: Register, at: nat): Register
    requires at < TWO63
  {
    var hi := at / 0x1_0000_0000;
    Register(hi, at % 0x1_0000_0000, Add32(r.version, 2), hi, r.bumps + 2,
             r.base + r.hi + 1 - hi, r.held + [at])
  }

  lemma StoreAtOk(r: Register, at: nat)
    requires r.Ok(Settled) && at < TWO63
    ensures StoreAt(r, at).Ok(Settled) && StoreAt(r, at).At() == at
  {
    WrapMove(r.bumps, 2, TWO32);
  }

  /** Where a cursor_load stands. `since` is the index into the held positions at which the call
      began, `seen` the bump count behind the version read first, `when` the position at the
      instant the low word was read. */
  datatype Load =
    | Fresh(since: nat)
    | SawVersion(since: nat, before: u32, seen: nat)
    | SawEpoch(since: nat, before: u32, seen: nat, epoch: u32)
    | SawLow(since: nat, before: u32, seen: nat, epoch: u32, low: u32, when: nat)
    | Returned(value: nat)
  {
    function Since(): nat { if Returned? then 0 else since }
  }

  function LoadStep(r: Register, ld: Load): Load {
    match ld
    case Fresh(s) => if r.version % 2 == 1 then ld else SawVersion(s, r.version, r.bumps)
    case SawVersion(s, b, n) => SawEpoch(s, b, n, r.epoch)
    case SawEpoch(s, b, n, e) => SawLow(s, b, n, e, r.low, r.At())
    case SawLow(s, b, n, e, l, w) => if b == r.version then Returned(e * 0x1_0000_0000 + l) else Fresh(s)
    case Returned(_) => ld
  }

  ghost predicate LoadOk(r: Register, ld: Load) {
    match ld
    case Fresh(s) => s < |r.held|
    case SawVersion(s, b, n) => s < |r.held| && Seen(r, b, n)
    case SawEpoch(s, b, n, e) => s < |r.held| && Seen(r, b, n) && (n == r.bumps ==> e == r.hi)
    case SawLow(s, b, n, e, l, w) =>
      && s < |r.held| && Seen(r, b, n) && w in r.held[s..]
      && (n == r.bumps ==> e * 0x1_0000_0000 + l == w)
    case Returned(_) => true
  }

  ghost predicate Seen(r: Register, before: u32, seen: nat) {
    before == Wrap(seen, TWO32) && seen % 2 == 0 && 2 * r.base <= seen <= r.bumps
  }

  /** The owner's own step disturbs no load in flight. */
  lemma LoadSurvives(r: Register, st: Store, ld: Load)
    requires r.Ok(st) && LoadOk(r, ld) && (st != LowWritten ==> r.At() + 1 < TWO63)
    ensures LoadOk(Advance(r, st).0, ld)
  {
    AdvanceOk(r, st);
    var r' := Advance(r, st).0;
    if ld.SawLow? {
      assert r.held <= r'.held;
      assert ld.when in r'.held[ld.since..] by {
        var i :| ld.since <= i < |r.held| && r.held[i] == ld.when;
        assert r'.held[i] == ld.when && r'.held[ld.since..][i - ld.since] == ld.when;
      }
    }
  }

  /** A version that reads the same as before is the same: within one call a cursor below 2^63
      cannot be bumped 2^32 times. */
  lemma SameVersion(r: Register, st: Store, before: u32, seen: nat)
    requires r.Ok(st) && Seen(r, before, seen) && before == r.version
    ensures seen == r.bumps
  {
    WrapInjective(seen, r.bumps, TWO32);
  }

  lemma EvenIsSettled(r: Register, st: Store)
    requires r.Ok(st)
    ensures r.version % 2 == r.bumps % 2
    ensures r.bumps % 2 == 0 ==> st == Settled
  {
    WrapIsMod(r.bumps, TWO32);
  }

  lemma LoadStepOk(r: Register, st: Store, ld: Load)
    requires r.Ok(st) && LoadOk(r, ld)
    ensures LoadOk(r, LoadStep(r, ld))
  {
    EvenIsSettled(r, st);
    if ld.SawEpoch? {
      assert r.held[|r.held| - 1] in r.held[ld.since..];
    }
  }

  /** cursor_load returns only a position the cursor held since the call began: the one it had at
      the instant the low word was read. */
  lemma LoadIsHonest(r: Register, st: Store, ld: Load)
    requires r.Ok(st) && LoadOk(r, ld) && ld.SawLow? && LoadStep(r, ld).Returned?
    ensures LoadStep(r, ld).value == ld.when && ld.when in r.held[ld.since..]
  {
    SameVersion(r, st, ld.before, ld.seen);
  }

  // ------------------------------------------------------------------ the two tasks

  /** audio_pcm_timeline_push, by the access it performs next. */
  datatype Producer =
    | Idle
    | Evicting(f: Frame, st: Store)
    | WritingLeft(f: Frame)
    | WritingRight(f: Frame)
    | MovingIndex(f: Frame)
    | Publishing(f: Frame, st: Store)

  /** audio_pcm_timeline_pop and _read, by the access performed next. */
  datatype Consumer =
    | Ready
    | PopLeft
    | PopRight(left: i16)
    | PopIndex(f: Frame)
    | PopPublish(f: Frame, st: Store)
    | ReadOldest(seqno: nat, ld: Load)
    | ReadWrite(seqno: nat, oldest: nat, ld: Load)
    | ReadLeft(seqno: nat)
    | ReadRight(seqno: nat, left: i16)
    | ReadRecheck(seqno: nat, f: Frame, ld: Load)

  /** What a call returned in the last step, if one did. */
  datatype Outcome =
    | Nothing
    | Pushed(ok: bool)
    | Popped(frame: Option<Frame>)
    | WasRead(seqno: nat, frame: Option<Frame>)

  datatype State = State(capacity: nat, mem: seq<i16>,
                         oldest: Register, play: Register, write: Register,
                         playIndex: nat, writeIndex: nat,
                         log: seq<Frame>, producer: Producer, consumer: Consumer, outcome: Outcome)

  datatype Action =
    | StartPush(f: Frame)
    | ProducerStep
    | StartPop
    | StartRead(seqno: nat)
    | ConsumerStep
    | SetPlayhead(seqno: nat)
    | DropNewest(n: nat)

  // ------------------------------------------------------------------ invariant

  ghost predicate Inv(s: State) {
    && 0 < s.capacity < TWO31 && |s.log| < TWO63
    && s.oldest.At() <= s.play.At() <= s.write.At() == |s.log| <= s.oldest.At() + s.capacity
    && Stored(s.mem, s.capacity, s.log, s.oldest.At())
    && s.oldest.Ok(Evict(s.producer)) && s.write.Ok(Publish(s.producer)) && s.play.Ok(PlayStore(s.consumer))
    && ProducerOk(s.capacity, s.mem, s.log, s.oldest.At(), s.play.At(), s.writeIndex, s.producer)
    && s.playIndex == PlayIndex(s.capacity, s.play.At(), s.consumer)
    && ConsumerOk(s.capacity, s.log, s.oldest, s.write, s.play.At(), s.consumer)
    && OutcomeOk(s.log, s.play.At(), s.outcome)
  }

  /** A state a run can be in. */
  type Live = s: State | Inv(s) ghost witness Rest()

  ghost function Rest(): (s: State)
    ensures Inv(s)
  {
    InitOk(1, [0, 0]);
    Init(1, [0, 0])
  }

  lemma InitOk(capacity: nat, mem: seq<i16>)
    requires 0 < capacity < TWO31 && |mem| == 2 * capacity
    ensures Inv(Init(capacity, mem))
  {
  }

  function Evict(p: Producer): Store { if p.Evicting? then p.st else Settled }
  function Publish(p: Producer): Store { if p.Publishing? then p.st else Settled }
  function PlayStore(c: Consumer): Store { if c.PopPublish? then c.st else Settled }

  /** A push in flight either finds the store full with history to evict, or owns the slot after the
      newest frame. */
  ghost predicate ProducerOk(c: nat, mem: seq<i16>, log: seq<Frame>, oldest: nat, play: nat,
                             index: nat, p: Producer)
    requires 0 < c && |mem| == 2 * c
  {
    var w := |log|;
    match p
    case Idle => index == Wrap(w, c)
    case Evicting(f, st) =>
      index == Wrap(w, c) && w + 1 < TWO63
      && (if st == LowWritten then w + 1 == oldest + c else w == oldest + c && oldest < play)
    case WritingLeft(f) => index == Wrap(w, c) && w < oldest + c && w + 1 < TWO63
    case WritingRight(f) => index == Wrap(w, c) && w < oldest + c && w + 1 < TWO63 && mem[2 * index] == f.left
    case MovingIndex(f) => index == Wrap(w, c) && w < oldest + c && w + 1 < TWO63 && InSlot(mem, index, f)
    case Publishing(f, st) =>
      if st == LowWritten then index == Wrap(w, c)
      else index == Wrap(w + 1, c) && w < oldest + c && w + 1 < TWO63 && InSlot(mem, Wrap(w, c), f)
  }

  function PlayIndex(c: nat, play: nat, k: Consumer): nat
    requires 0 < c
  {
    if k.PopPublish? && k.st != LowWritten then Wrap(play + 1, c) else Wrap(play, c)
  }

  ghost predicate ConsumerOk(c: nat, log: seq<Frame>, oldest: Register, write: Register, p: nat, k: Consumer) {
    match k
    case Ready => true
    case PopLeft => p < |log|
    case PopRight(l) => p < |log| && l == log[p].left
    case PopIndex(f) => p < |log| && f == log[p]
    case PopPublish(f, st) =>
      if st == LowWritten then 0 < p <= |log| && f == log[p - 1] else p < |log| && f == log[p]
    case ReadOldest(q, ld) =>
      LoadOk(oldest, ld) && !ld.Returned? && (ld.SawLow? ==> p <= ld.when + c && ld.when <= oldest.At())
    case ReadWrite(q, o, ld) =>
      LoadOk(write, ld) && !ld.Returned? && p <= o + c && o <= oldest.At() && (ld.SawLow? ==> ld.when <= |log|)
    case ReadLeft(q) => q < |log| && p <= q + c
    case ReadRight(q, l) =>
      q < |log| && p <= q + c && (oldest.At() <= q ==> l == log[q].left)
    case ReadRecheck(q, f, ld) =>
      && q < |log| && LoadOk(oldest, ld) && !ld.Returned? && (ld.SawLow? ==> ld.when <= oldest.At())
      && ((if ld.SawLow? then ld.when else oldest.At()) <= q ==> f == log[q])
  }

  /** A popped frame is the one logged just behind the playhead; a frame that is read is the one
      logged at the number asked for. */
  ghost predicate OutcomeOk(log: seq<Frame>, play: nat, o: Outcome) {
    match o
    case Popped(Some(f)) => 0 < play <= |log| && log[play - 1] == f
    case WasRead(q, Some(f)) => q < |log| && log[q] == f
    case _ => true
  }

  // ------------------------------------------------------------------ steps

  ghost function Begin(s: Live, f: Frame): State
    requires s.producer.Idle?
  {
    // Sequence numbers are compared as signed 64-bit values: no deck plays 2^63 frames.
    if s.write.At() + 1 >= TWO63 then s.(outcome := Nothing)
    else if Sub32(s.write.low, s.oldest.low) < s.capacity then s.(producer := WritingLeft(f), outcome := Nothing)
    else if Sub32(s.play.low, s.oldest.low) == 0 then s.(outcome := Pushed(false))
    else s.(producer := Evicting(f, Settled), outcome := Nothing)
  }

  ghost function Produce(s: Live): State
  {
    match s.producer
    case Idle => s.(outcome := Nothing)
    case Evicting(f, st) =>
      var (r, st', done) := Advance(s.oldest, st);
      s.(oldest := r, producer := if done then WritingLeft(f) else Evicting(f, st'), outcome := Nothing)
    case WritingLeft(f) =>
      s.(mem := s.mem[2 * s.writeIndex := f.left], producer := WritingRight(f), outcome := Nothing)
    case WritingRight(f) =>
      s.(mem := s.mem[2 * s.writeIndex + 1 := f.right], producer := MovingIndex(f), outcome := Nothing)
    case MovingIndex(f) =>
      s.(writeIndex := Forward(s.writeIndex, s.capacity), producer := Publishing(f, Settled), outcome := Nothing)
    case Publishing(f, st) =>
      var (r, st', done) := Advance(s.write, st);
      s.(write := r,
         log := if r.At() > s.write.At() then s.log + [f] else s.log,
         producer := if done then Idle else Publishing(f, st'),
         outcome := if done then Pushed(true) else Nothing)
  }

  ghost function BeginPop(s: Live): State
    requires s.consumer.Ready?
  {
    if Sub32(s.write.low, s.play.low) == 0 then s.(outcome := Popped(None))
    else s.(consumer := PopLeft, outcome := Nothing)
  }

  /** The physical slot of a sequence number, measured from the playhead. */
  function SlotOf(capacity: nat, playIndex: nat, play: nat, seqno: nat): int {
    var i := playIndex + (seqno - play);
    if i < 0 then i + capacity else if i >= capacity then i - capacity else i
  }

  lemma SlotIsWrap(s: Live, q: nat)
    requires (s.consumer.ReadLeft? || s.consumer.ReadRight?) && q == s.consumer.seqno
    ensures SlotOf(s.capacity, s.playIndex, s.play.At(), q) == Wrap(q, s.capacity)
    ensures 2 * Wrap(q, s.capacity) + 1 < |s.mem|
  {
    WrapMove(s.play.At(), q - s.play.At(), s.capacity);
  }

  ghost function Consume(s: Live): State
  {
    match s.consumer
    case Ready => s.(outcome := Nothing)
    case PopLeft => s.(consumer := PopRight(s.mem[2 * s.playIndex]), outcome := Nothing)
    case PopRight(l) => s.(consumer := PopIndex(Frame(l, s.mem[2 * s.playIndex + 1])), outcome := Nothing)
    case PopIndex(f) =>
      s.(playIndex := Forward(s.playIndex, s.capacity), consumer := PopPublish(f, Settled), outcome := Nothing)
    case PopPublish(f, st) =>
      var (r, st', done) := Advance(s.play, st);
      s.(play := r, consumer := if done then Ready else PopPublish(f, st'),
         outcome := if done then Popped(Some(f)) else Nothing)
    case ReadOldest(q, ld) =>
      var ld' := LoadStep(s.oldest, ld);
      s.(consumer := if ld'.Returned? then ReadWrite(q, ld'.value, Fresh(|s.write.held| - 1))
                     else ReadOldest(q, ld'), outcome := Nothing)
    case ReadWrite(q, o, ld) =>
      var ld' := LoadStep(s.write, ld);
      if !ld'.Returned? then s.(consumer := ReadWrite(q, o, ld'), outcome := Nothing)
      else if q < o || q >= ld'.value then s.(consumer := Ready, outcome := WasRead(q, None))
      else s.(consumer := ReadLeft(q), outcome := Nothing)
    case ReadLeft(q) =>
      SlotIsWrap(s, q);
      s.(consumer := ReadRight(q, s.mem[2 * SlotOf(s.capacity, s.playIndex, s.play.At(), q)]), outcome := Nothing)
    case ReadRight(q, l) =>
      SlotIsWrap(s, q);
      var f := Frame(l, s.mem[2 * SlotOf(s.capacity, s.playIndex, s.play.At(), q) + 1]);
      s.(consumer := ReadRecheck(q, f, Fresh(|s.oldest.held| - 1)), outcome := Nothing)
    case ReadRecheck(q, f, ld) =>
      var ld' := LoadStep(s.oldest, ld);
      if !ld'.Returned? then s.(consumer := ReadRecheck(q, f, ld'), outcome := Nothing)
      else s.(consumer := Ready, outcome := WasRead(q, if q >= ld'.value then Some(f) else None))
  }

  /** Repositioning and withdrawing run with the other task excluded. */
  ghost function Seek(s: Live, q: nat): State
  {
    if !s.producer.Idle? || !s.consumer.Ready? || q < s.oldest.At() || q > s.write.At() then s.(outcome := Nothing)
    else s.(play := StoreAt(s.play, q), playIndex := Back(s.writeIndex, s.capacity, s.write.At() - q),
            outcome := Nothing)
  }

  /** How many of the newest frames playback has not reached. */
  function Takeable(s: State, n: nat): nat
    requires s.play.At() <= s.write.At()
  {
    if n > s.write.At() - s.play.At() then s.write.At() - s.play.At() else n
  }

  ghost function WithdrawExactly(s: State, k: nat): State
    requires 0 < k <= s.write.At() == |s.log| < TWO63 && k <= s.capacity
  {
    s.(write := StoreAt(s.write, s.write.At() - k), writeIndex := Back(s.writeIndex, s.capacity, k),
       log := s.log[..|s.log| - k], outcome := Nothing)
  }

  ghost function Withdraw(s: Live, n: nat): State
  {
    if !s.producer.Idle? || !s.consumer.Ready? || Takeable(s, n) == 0 then s.(outcome := Nothing)
    else WithdrawExactly(s, Takeable(s, n))
  }

  ghost function Step(s: Live, a: Action): State
  {
    match a
    case StartPush(f) => if s.producer.Idle? then Begin(s, f) else s.(outcome := Nothing)
    case ProducerStep => Produce(s)
    case StartPop => if s.consumer.Ready? then BeginPop(s) else s.(outcome := Nothing)
    case StartRead(q) =>
      if s.consumer.Ready? then s.(consumer := ReadOldest(q, Fresh(|s.oldest.held| - 1)), outcome := Nothing)
      else s.(outcome := Nothing)
    case ConsumerStep => Consume(s)
    case SetPlayhead(q) => Seek(s, q)
    case DropNewest(n) => Withdraw(s, n)
  }

  // ------------------------------------------------------------------ every step keeps it

  lemma LowDistance(a: Register, b: Register)
    requires b.At() <= a.At() < b.At() + TWO32
    ensures Sub32(a.low, b.low) == a.At() - b.At()
  {
  }

  lemma BeginKeeps(s: Live, f: Frame)
    requires s.producer.Idle?
    ensures Inv(Begin(s, f))
    ensures |s.log| + 1 < TWO63 ==>
              && (Begin(s, f).outcome == Pushed(false) <==>
                  |s.log| == s.oldest.At() + s.capacity && s.play.At() == s.oldest.At())
              && (Begin(s, f).producer.Evicting? <==>
                  |s.log| == s.oldest.At() + s.capacity && s.oldest.At() < s.play.At())
  {
    assert |s.mem| == 2 * s.capacity;
    hide ConsumerOk, Stored, Register.Ok, Sub32, Register.At, Wrap, InSlot, PlayIndex;
    LowDistance(s.write, s.oldest);
    LowDistance(s.play, s.oldest);
  }

  /** The slot being written is nobody's: it lies a full capacity behind every retained frame. */
  lemma StoreUntouched(mem: seq<i16>, mem': seq<i16>, capacity: nat, log: seq<Frame>, oldest: nat)
    requires 0 < capacity && Stored(mem, capacity, log, oldest) && |mem'| == |mem|
    requires oldest <= |log| < oldest + capacity
    requires forall i :: 0 <= i < |mem| && i / 2 != Wrap(|log|, capacity) ==> mem'[i] == mem[i]
    ensures Stored(mem', capacity, log, oldest)
  {
    forall q | oldest <= q < |log| ensures InSlot(mem', Wrap(q, capacity), log[q]) {
      if Wrap(q, capacity) == Wrap(|log|, capacity) {
        WrapInjective(q, |log|, capacity);
      }
      assert InSlot(mem, Wrap(q, capacity), log[q]);
    }
  }

  lemma StoreShrinks(mem: seq<i16>, c: nat, log: seq<Frame>, oldest: nat, log': seq<Frame>, oldest': nat)
    requires 0 < c && Stored(mem, c, log, oldest) && oldest <= oldest' && log' <= log
    ensures Stored(mem, c, log', oldest')
  {
    forall q | oldest' <= q < |log'| ensures InSlot(mem, Wrap(q, c), log'[q]) {
      assert InSlot(mem, Wrap(q, c), log[q]);
    }
  }

  lemma StoreGrows(mem: seq<i16>, c: nat, log: seq<Frame>, oldest: nat, f: Frame)
    requires 0 < c && Stored(mem, c, log, oldest) && InSlot(mem, Wrap(|log|, c), f)
    ensures Stored(mem, c, log + [f], oldest)
  {
    forall q | oldest <= q < |log| + 1 ensures InSlot(mem, Wrap(q, c), (log + [f])[q]) {
      if q < |log| {
        assert InSlot(mem, Wrap(q, c), log[q]);
      }
    }
  }

  lemma WriteKeeps(s: Live)
    requires s.producer.WritingLeft? || s.producer.WritingRight?
    ensures Inv(Produce(s))
  {
    hide ConsumerOk, Register.Ok, Register.At;
    StoreUntouched(s.mem, Produce(s).mem, s.capacity, s.log, s.oldest.At());
  }

  /** The consumer's knowledge survives an eviction step. */
  lemma ConsumerSurvivesEvict(c: nat, log: seq<Frame>, oldest: Register, write: Register, p: nat, k: Consumer, st: Store)
    requires ConsumerOk(c, log, oldest, write, p, k) && oldest.Ok(st) && (st != LowWritten ==> oldest.At() + 1 < TWO63)
    ensures ConsumerOk(c, log, Advance(oldest, st).0, write, p, k)
  {
    AdvanceOk(oldest, st);
    if k.ReadOldest? || k.ReadRecheck? {
      LoadSurvives(oldest, st, k.ld);
    }
    hide LoadOk, Advance, Register.Ok, Register.At;
  }

  lemma EvictKeeps(s: Live)
    requires s.producer.Evicting?
    ensures Inv(Produce(s))
  {
    var st := s.producer.st;
    AdvanceOk(s.oldest, st);
    ConsumerSurvivesEvict(s.capacity, s.log, s.oldest, s.write, s.play.At(), s.consumer, st);
    StoreShrinks(s.mem, s.capacity, s.log, s.oldest.At(), s.log, Advance(s.oldest, st).0.At());
    hide ConsumerOk, Stored, Advance, Register.Ok, Register.At;
  }

  /** The consumer's knowledge survives a publishing step: the log only grows. */
  lemma ConsumerSurvivesPublish(c: nat, log: seq<Frame>, oldest: Register, write: Register, p: nat, k: Consumer,
                                st: Store, log': seq<Frame>)
    requires ConsumerOk(c, log, oldest, write, p, k) && write.Ok(st) && (st != LowWritten ==> write.At() + 1 < TWO63)
    requires log <= log'
    ensures ConsumerOk(c, log', oldest, Advance(write, st).0, p, k)
  {
    AdvanceOk(write, st);
    if k.ReadWrite? {
      LoadSurvives(write, st, k.ld);
    }
    hide LoadOk, Advance, Register.Ok, Register.At;
  }

  /** Publishing the write cursor: the log grows exactly when the cursor moves, and the push still
      owns what it wrote or is done. */
  lemma PublishStep(c: nat, mem: seq<i16>, log: seq<Frame>, oldest: nat, play: nat, index: nat, write: Register, f: Frame, st: Store)
    requires 0 < c && |mem| == 2 * c && write.Ok(st) && write.At() == |log| <= oldest + c && |log| < TWO63
    requires ProducerOk(c, mem, log, oldest, play, index, Publishing(f, st)) && Stored(mem, c, log, oldest)
    ensures st != LowWritten ==> write.At() + 1 < TWO63
    ensures var (r, st', done) := Advance(write, st);
            var log' := if r.At() > write.At() then log + [f] else log;
            var p := if done then Idle else Publishing(f, st');
            && r.At() == |log'| <= oldest + c && |log'| < TWO63 && r.Ok(Publish(p))
            && Stored(mem, c, log', oldest) && ProducerOk(c, mem, log', oldest, play, index, p)
  {
    hide Register.Ok, Register.At, Advance, Wrap, InSlot, Stored;
    AdvanceOk(write, st);
    if Advance(write, st).0.At() > write.At() { StoreGrows(mem, c, log, oldest, f); }
  }

  lemma OutcomeSurvives(log: seq<Frame>, play: nat, done: bool)
    ensures OutcomeOk(log, play, if done then Pushed(true) else Nothing)
  {
  }

  lemma PublishKeeps(s: Live)
    requires s.producer.Publishing?
    ensures Inv(Produce(s))
  {
    assert |s.mem| == 2 * s.capacity;
    hide ConsumerOk, Stored, Advance, Register.Ok, Register.At, Wrap, InSlot, ProducerOk, OutcomeOk, PlayIndex;
    var st, f := s.producer.st, s.producer.f;
    PublishStep(s.capacity, s.mem, s.log, s.oldest.At(), s.play.At(), s.writeIndex, s.write, f, st);
    ConsumerSurvivesPublish(s.capacity, s.log, s.oldest, s.write, s.play.At(), s.consumer, st, Produce(s).log);
    OutcomeSurvives(Produce(s).log, s.play.At(), Advance(s.write, st).2);
  }

  lemma MoveIndexKeeps(s: Live)
    requires s.producer.MovingIndex?
    ensures Inv(Produce(s))
  {
    WrapMove(|s.log|, 1, s.capacity);
    hide ConsumerOk, Stored, Register.Ok, Register.At;
  }

  lemma PopReadKeeps(s: Live)
    requires s.consumer.PopLeft? || s.consumer.PopRight? || s.consumer.PopIndex?
    ensures Inv(Consume(s))
  {
    hide ProducerOk, Register.Ok, Register.At, LoadOk, Wrap;
    WrapMove(s.play.At(), 1, s.capacity);
    assert InSlot(s.mem, Wrap(s.play.At(), s.capacity), s.log[s.play.At()]);
    hide Stored;
  }

  lemma ProducerSurvivesPop(c: nat, mem: seq<i16>, log: seq<Frame>, oldest: nat, play: nat, play': nat,
                            index: nat, p: Producer)
    requires 0 < c && |mem| == 2 * c && ProducerOk(c, mem, log, oldest, play, index, p) && play <= play'
    ensures ProducerOk(c, mem, log, oldest, play', index, p)
  {
  }

  /** Publishing the playhead: what is known of the pop after one access. */
  lemma PopPublishStep(c: nat, log: seq<Frame>, oldest: Register, write: Register, play: Register, f: Frame, st: Store)
    requires 0 < c && |log| < TWO63 && play.Ok(st) && play.At() <= |log|
    requires ConsumerOk(c, log, oldest, write, play.At(), PopPublish(f, st))
    ensures var (r, st', done) := Advance(play, st);
            var k := if done then Ready else PopPublish(f, st');
            && play.At() <= r.At() <= |log| && r.Ok(PlayStore(k))
            && ConsumerOk(c, log, oldest, write, r.At(), k)
            && PlayIndex(c, r.At(), k) == PlayIndex(c, play.At(), PopPublish(f, st))
            && OutcomeOk(log, r.At(), if done then Popped(Some(f)) else Nothing)
  {
    hide Register.Ok, Register.At, Advance, Wrap;
    AdvanceOk(play, st);
  }

  lemma PopPublishKeeps(s: Live)
    requires s.consumer.PopPublish?
    ensures Inv(Consume(s))
  {
    assert |s.mem| == 2 * s.capacity;
    hide Stored, Register.Ok, Register.At, LoadOk, Advance, ProducerOk, Wrap, ConsumerOk, OutcomeOk, PlayIndex;
    PopPublishStep(s.capacity, s.log, s.oldest, s.write, s.play, s.consumer.f, s.consumer.st);
    ProducerSurvivesPop(s.capacity, s.mem, s.log, s.oldest.At(), s.play.At(),
                        Advance(s.play, s.consumer.st).0.At(), s.writeIndex, s.producer);
  }

  lemma ReadKeeps(s: Live)
    requires s.consumer.ReadLeft? || s.consumer.ReadRight?
    ensures Inv(Consume(s))
  {
    var q := s.consumer.seqno;
    SlotIsWrap(s, q);
    if s.oldest.At() <= q {
      assert InSlot(s.mem, Wrap(q, s.capacity), s.log[q]);
    }
    assert |s.oldest.held| > 0;
    hide ProducerOk, Stored, Register.Ok, Register.At, Wrap;
  }

  lemma OldestLoadKeeps(s: Live)
    requires s.consumer.ReadOldest? || s.consumer.ReadRecheck?
    ensures Inv(Consume(s))
  {
    assert |s.mem| == 2 * s.capacity && |s.write.held| > 0;
    hide ProducerOk, Stored, Register.Ok, Wrap, InSlot;
    var ld, st := s.consumer.ld, Evict(s.producer);
    LoadStepOk(s.oldest, st, ld);
    if ld.SawLow? && LoadStep(s.oldest, ld).Returned? {
      LoadIsHonest(s.oldest, st, ld);
    }
    hide Register.At;
  }

  lemma WriteLoadKeeps(s: Live)
    requires s.consumer.ReadWrite?
    ensures Inv(Consume(s))
  {
    assert |s.mem| == 2 * s.capacity;
    hide ProducerOk, Stored, Register.Ok, Wrap;
    var ld, st := s.consumer.ld, Publish(s.producer);
    LoadStepOk(s.write, st, ld);
    if ld.SawLow? && LoadStep(s.write, ld).Returned? {
      LoadIsHonest(s.write, st, ld);
    }
    hide Register.At;
  }

  lemma SeekKeeps(s: Live, q: nat)
    ensures Inv(Seek(s, q))
    ensures s.producer.Idle? && s.consumer.Ready? ==>
              Seek(s, q).play.At() == if s.oldest.At() <= q <= |s.log| then q else s.play.At()
  {
    if s.consumer.Ready? && q <= s.write.At() && s.oldest.At() <= q {
      StoreAtOk(s.play, q);
      WrapMove(s.write.At(), q - s.write.At(), s.capacity);
    }
    hide Stored, Register.Ok, Register.At, StoreAt;
  }

  /** A timeline with both tasks idle is sound. */
  lemma AtRest(c: nat, mem: seq<i16>, log: seq<Frame>, oldest: Register, write: Register, play: nat, index: nat)
    requires 0 < c && |mem| == 2 * c && index == Wrap(|log|, c)
    ensures ConsumerOk(c, log, oldest, write, play, Ready) && OutcomeOk(log, play, Nothing)
    ensures ProducerOk(c, mem, log, oldest.At(), play, index, Idle)
  {
  }

  lemma BackIsWrap(at: nat, c: nat, k: nat)
    requires 0 < c && k <= c && k <= at
    ensures Back(Wrap(at, c), c, k) == Wrap(at - k, c)
  {
    hide Wrap;
    WrapMove(at, 0 - k, c);
  }

  lemma WithdrawExactlyKeeps(s: Live, k: nat)
    requires k <= s.capacity && s.producer.Idle? && s.consumer.Ready? && 0 < k <= |s.log| - s.play.At()
    ensures Inv(WithdrawExactly(s, k))
  {
    assert |s.mem| == 2 * s.capacity && s.writeIndex == Wrap(|s.log|, s.capacity);
    hide Stored, Register.Ok, Register.At, LoadOk, Wrap, StoreAt, InSlot, ConsumerOk, OutcomeOk, ProducerOk, Back;
    var log, write := s.log[..|s.log| - k], StoreAt(s.write, s.write.At() - k);
    StoreAtOk(s.write, s.write.At() - k);
    BackIsWrap(|s.log|, s.capacity, k);
    AtRest(s.capacity, s.mem, log, s.oldest, write, s.play.At(), Wrap(|log|, s.capacity));
    StoreShrinks(s.mem, s.capacity, s.log, s.oldest.At(), log, s.oldest.At());
  }

  lemma WithdrawKeeps(s: Live, n: nat)
    ensures Inv(Withdraw(s, n))
    ensures s.producer.Idle? && s.consumer.Ready? ==>
              Withdraw(s, n).log == s.log[..if |s.log| - n < s.play.At() then s.play.At() else |s.log| - n]
  {
    if s.producer.Idle? && s.consumer.Ready? && Takeable(s, n) != 0 {
      WithdrawExactlyKeeps(s, Takeable(s, n));
    } else {
      QuietKeeps(s);
    }
    hide Inv, WithdrawExactly;
  }

  lemma StartKeeps(s: Live, a: Action)
    requires a.StartPop? || a.StartRead?
    ensures Inv(Step(s, a))
  {
    LowDistance(s.write, s.play);
    assert |s.oldest.held| > 0;
    hide ProducerOk, Stored, Register.Ok, Register.At, Sub32;
  }

  lemma QuietKeeps(s: Live)
    ensures Inv(s.(outcome := Nothing))
  {
    hide ProducerOk, ConsumerOk, Stored, Register.Ok, Register.At;
  }

  lemma ProduceKeeps(s: Live)
    ensures Inv(Produce(s)) && Produce(s).capacity == s.capacity
  {
    match s.producer {
      case Idle => QuietKeeps(s);
      case Evicting(_, _) => EvictKeeps(s);
      case WritingLeft(_) => WriteKeeps(s);
      case WritingRight(_) => WriteKeeps(s);
      case MovingIndex(_) => MoveIndexKeeps(s);
      case Publishing(_, _) => PublishKeeps(s);
    }
    hide Inv;
  }

  lemma ConsumeKeeps(s: Live)
    ensures Inv(Consume(s)) && Consume(s).capacity == s.capacity
  {
    match s.consumer {
      case Ready => QuietKeeps(s);
      case PopLeft => PopReadKeeps(s);
      case PopRight(_) => PopReadKeeps(s);
      case PopIndex(_) => PopReadKeeps(s);
      case PopPublish(_, _) => PopPublishKeeps(s);
      case ReadOldest(_, _) => OldestLoadKeeps(s);
      case ReadWrite(_, _, _) => WriteLoadKeeps(s);
      case ReadLeft(_) => ReadKeeps(s);
      case ReadRight(_, _) => ReadKeeps(s);
      case ReadRecheck(_, _, _) => OldestLoadKeeps(s);
    }
    hide Inv;
  }

  lemma StepKeeps(s: Live, a: Action)
    ensures Inv(Step(s, a)) && Step(s, a).capacity == s.capacity
  {
    hide Inv, Produce, Consume;
    QuietKeeps(s);
    match a
    case StartPush(f) => if s.producer.Idle? { BeginKeeps(s, f); }
    case ProducerStep => ProduceKeeps(s);
    case StartPop => StartKeeps(s, a);
    case StartRead(_) => StartKeeps(s, a);
    case ConsumerStep => ConsumeKeeps(s);
    case SetPlayhead(q) => SeekKeeps(s, q);
    case DropNewest(n) => WithdrawKeeps(s, n);
  }

  // ------------------------------------------------------------------ runs

  ghost function Init(capacity: nat, mem: seq<i16>): State
    requires 0 < capacity < TWO31 && |mem| == 2 * capacity
  {
    var r := Register(0, 0, 0, 0, 0, 0, [0]);
    State(capacity, mem, r, r, r, 0, 0, [], Idle, Ready, Nothing)
  }

  ghost function Run(s: Live, actions: seq<Action>): State
    decreases actions
  {
    if actions == [] then s
    else
      StepKeeps(s, actions[0]);
      Run(Step(s, actions[0]), actions[1..])
  }

  /** In every interleaving of the two tasks, the three cursors stay ordered within one capacity,
      a pop hands out the frame logged at its sequence number, and a read that succeeds hands out
      the frame logged at the number asked for: never a torn one, never one overwritten meanwhile. */
  lemma {:induction false} EveryRunIsExact(capacity: nat, mem: seq<i16>, actions: seq<Action>)
    requires 0 < capacity < TWO31 && |mem| == 2 * capacity
    ensures Inv(Init(capacity, mem))
    ensures var s := Run(Init(capacity, mem), actions);
            && s.oldest.At() <= s.play.At() <= |s.log| <= s.oldest.At() + capacity
            && (s.outcome.Popped? && s.outcome.frame.Some? ==>
                  0 < s.play.At() && s.outcome.frame.value == s.log[s.play.At() - 1])
            && (s.outcome.WasRead? && s.outcome.frame.Some? ==>
                  s.outcome.seqno < |s.log| && s.outcome.frame.value == s.log[s.outcome.seqno])
  {
    RunKeeps(Init(capacity, mem), actions);
  }

  /** In every run, a load by the consumer that is about to return returns a position which that
      cursor held since the load began. */
  lemma {:induction false} EveryLoadIsHonest(capacity: nat, mem: seq<i16>, actions: seq<Action>)
    requires 0 < capacity < TWO31 && |mem| == 2 * capacity
    ensures Inv(Init(capacity, mem))
    ensures var s := Run(Init(capacity, mem), actions);
            && ((s.consumer.ReadOldest? || s.consumer.ReadRecheck?) && s.consumer.ld.SawLow?
                && LoadStep(s.oldest, s.consumer.ld).Returned? ==>
                  s.consumer.ld.since <= |s.oldest.held|
                  && LoadStep(s.oldest, s.consumer.ld).value in s.oldest.held[s.consumer.ld.since..])
            && (s.consumer.ReadWrite? && s.consumer.ld.SawLow? && LoadStep(s.write, s.consumer.ld).Returned? ==>
                  s.consumer.ld.since <= |s.write.held|
                  && LoadStep(s.write, s.consumer.ld).value in s.write.held[s.consumer.ld.since..])
  {
    RunKeeps(Init(capacity, mem), actions);
    var s := Run(Init(capacity, mem), actions);
    if (s.consumer.ReadOldest? || s.consumer.ReadRecheck?) && s.consumer.ld.SawLow? && LoadStep(s.oldest, s.consumer.ld).Returned? {
      LoadIsHonest(s.oldest, Evict(s.producer), s.consumer.ld);
    }
    if s.consumer.ReadWrite? && s.consumer.ld.SawLow? && LoadStep(s.write, s.consumer.ld).Returned? {
      LoadIsHonest(s.write, Publish(s.producer), s.consumer.ld);
    }
    hide ProducerOk, Stored, Register.Ok, Register.At, Run;
  }

  lemma {:induction false} RunKeeps(s: Live, actions: seq<Action>)
    ensures Inv(Run(s, actions)) && Run(s, actions).capacity == s.capacity
    decreases actions
  {
    hide Inv, Step;
    if actions != [] {
      StepKeeps(s, actions[0]);
      RunKeeps(Step(s, actions[0]), actions[1..]);
    }
  }

  /** Frames whose pop has returned: one behind the playhead while a pop still has to close its
      version bump. */
  function Handed(s: State): int {
    if PlayStore(s.consumer) == LowWritten then s.play.At() - 1 else s.play.At()
  }

  function PoppedFrames(o: Outcome): seq<Frame> {
    if o.Popped? && o.frame.Some? then [o.frame.value] else []
  }

  ghost function Delivered(s: Live, actions: seq<Action>): seq<Frame>
    decreases actions
  {
    if actions == [] then []
    else
      StepKeeps(s, actions[0]);
      PoppedFrames(Step(s, actions[0]).outcome) + Delivered(Step(s, actions[0]), actions[1..])
  }

  /** What one step may do to what playback has handed out. */
  ghost predicate Delivers(s: State, t: State) {
    && 0 <= Handed(s) <= |s.log| && Handed(s) <= |t.log|
    && t.log[..Handed(s)] == s.log[..Handed(s)]
    && Handed(t) == Handed(s) + |PoppedFrames(t.outcome)|
    && (PoppedFrames(t.outcome) != [] ==> Handed(s) < |t.log| && [t.log[Handed(s)]] == PoppedFrames(t.outcome))
  }

  lemma HandedBounds(s: Live)
    ensures 0 <= Handed(s) <= s.play.At() <= |s.log|
  {
    hide Stored, ProducerOk, Register.At;
  }

  lemma PopPublishDelivers(s: Live)
    requires s.consumer.PopPublish?
    ensures Delivers(s, Consume(s))
  {
    HandedBounds(s);
    assert s.consumer.st != LowWritten ==> s.play.At() < |s.log|;
    hide Stored, ProducerOk, Register.At, Register.Ok, Advance, LoadOk, Wrap, OutcomeOk, PlayIndex;
    AdvanceOk(s.play, s.consumer.st);
  }

  lemma OthersHandOutNothing(s: Live)
    requires !s.consumer.PopPublish?
    ensures var t := Consume(s);
            t.play == s.play && t.log == s.log && PlayStore(t.consumer) != LowWritten && PoppedFrames(t.outcome) == []
  {
    hide Stored, ProducerOk, Register.At, Register.Ok, LoadOk, LoadStep, ConsumerOk, OutcomeOk, PlayIndex, Wrap, InSlot;
  }

  lemma ConsumeDelivers(s: Live)
    ensures Delivers(s, Consume(s))
  {
    if s.consumer.PopPublish? {
      PopPublishDelivers(s);
    } else {
      HandedBounds(s);
      OthersHandOutNothing(s);
      hide Inv, Consume;
    }
  }

  lemma ProduceDelivers(s: Live)
    ensures Delivers(s, Produce(s))
  {
    HandedBounds(s);
    hide Inv, Stored, ProducerOk, ConsumerOk, Register.At, Register.Ok, Advance, LoadOk, Forward;
  }

  lemma WithdrawDelivers(s: Live, n: nat)
    ensures Delivers(s, Withdraw(s, n))
  {
    HandedBounds(s);
    hide Stored, ProducerOk, ConsumerOk, Register.At, Register.Ok, StoreAt;
  }

  lemma StartDelivers(s: Live, a: Action)
    requires a.StartPush? || a.StartPop? || a.StartRead?
    ensures Delivers(s, Step(s, a))
  {
    HandedBounds(s);
    hide Inv, Register.At, Sub32;
  }

  lemma StepDelivers(s: Live, a: Action)
    requires !a.SetPlayhead?
    ensures Delivers(s, Step(s, a))
  {
    HandedBounds(s);
    if a.ConsumerStep? {
      ConsumeDelivers(s);
      hide Inv, Consume;
    } else if a.ProducerStep? {
      ProduceDelivers(s);
      hide Inv, Produce;
    } else if a.DropNewest? {
      WithdrawDelivers(s, a.n);
      hide Inv, Withdraw;
    } else {
      StartDelivers(s, a);
    }
  }

  /** In every interleaving that does not reposition the playhead, what the pops return is exactly
      the log from where they began, in order: nothing lost, repeated or torn, also when the
      decoder meanwhile withdraws its runway and pushes other frames instead. */
  lemma {:induction false} EveryRunDeliversTheLog(s: Live, actions: seq<Action>)
    requires forall i :: 0 <= i < |actions| ==> !actions[i].SetPlayhead?
    ensures var t := Run(s, actions);
            && 0 <= Handed(s) <= Handed(t) <= |t.log|
            && Handed(s) <= |s.log| && t.log[..Handed(s)] == s.log[..Handed(s)]
            && Delivered(s, actions) == t.log[Handed(s)..Handed(t)]
    decreases actions
  {
    hide Inv, Step, Handed;
    HandedBounds(s);
    if actions != [] {
      StepDelivers(s, actions[0]);
      StepKeeps(s, actions[0]);
      var m := Step(s, actions[0]);
      EveryRunDeliversTheLog(m, actions[1..]);
      var t := Run(m, actions[1..]);
      assert t.log[..Handed(s)] == t.log[..Handed(m)][..Handed(s)];
      if PoppedFrames(m.outcome) != [] {
        assert t.log[Handed(s)] == t.log[..Handed(m)][Handed(s)];
        assert t.log[Handed(s)..Handed(t)] == [t.log[Handed(s)]] + t.log[Handed(m)..Handed(t)];
      }
    }
  }

  // ------------------------------------------------------------------ when a call evicts or refuses

  /** Where the cursor a read is loading stood, once the read has asked what is written. */
  ghost predicate NotWrittenSince(s: State, q: nat) {
    s.consumer.ReadWrite? && exists i :: s.consumer.ld.Since() <= i < |s.write.held| && s.write.held[i] <= q
  }

  /** What one step may do to the history, and when it may turn a call away. */
  ghost predicate Due(s: State, a: Action, t: State) {
    // A frame of history goes only when the store is full, never one playback still needs.
    && (t.oldest.At() != s.oldest.At() ==>
          t.oldest.At() == s.oldest.At() + 1 <= s.play.At() && |s.log| == s.oldest.At() + s.capacity)
    // A push is refused exactly when the store is full and holds no history.
    && (t.outcome == Pushed(false) <==>
          a.StartPush? && s.producer.Idle? && |s.log| + 1 < TWO63
          && |s.log| == s.oldest.At() + s.capacity && s.play.At() == s.oldest.At())
    // A pop comes back empty exactly when nothing is ahead of the playhead.
    && (t.outcome == Popped(None) <==> a.StartPop? && s.consumer.Ready? && s.play.At() == |s.log|)
    // A read fails only for a frame evicted, or not written at some time since it asked.
    && (t.outcome.WasRead? && t.outcome.frame.None? ==>
          t.outcome.seqno < s.oldest.At() || NotWrittenSince(s, t.outcome.seqno))
    // It asks from the position the write cursor has then.
    && (t.consumer.ReadWrite? ==>
          if s.consumer.ReadWrite? then t.consumer.ld.Since() == s.consumer.ld.Since()
          else t.consumer.ld.Since() == |s.write.held| - 1)
  }

  lemma BeginIsDue(s: Live, f: Frame)
    requires s.producer.Idle?
    ensures Due(s, StartPush(f), Begin(s, f))
  {
    var t := Begin(s, f);
    assert t.oldest == s.oldest && t.consumer == s.consumer && (t.outcome == Nothing || t.outcome == Pushed(false)) by {
      hide Inv, Register.At, Sub32;
    }
    assert |s.log| + 1 >= TWO63 ==> t.outcome == Nothing;
    BeginKeeps(s, f);
    hide Inv, Register.At, NotWrittenSince, Begin;
  }

  lemma ProduceIsDue(s: Live)
    ensures Due(s, ProducerStep, Produce(s))
  {
    if s.producer.Evicting? {
      AdvanceOk(s.oldest, s.producer.st);
    }
    hide Stored, ConsumerOk, Register.Ok, Register.At, Advance, Wrap, InSlot, OutcomeOk, PlayIndex;
  }

  lemma StartPopIsDue(s: Live)
    requires s.consumer.Ready?
    ensures Due(s, StartPop, BeginPop(s))
  {
    LowDistance(s.write, s.play);
    hide Stored, ProducerOk, ConsumerOk, Register.Ok, Register.At, Sub32, OutcomeOk, PlayIndex;
  }

  lemma ReadWriteIsDue(s: Live)
    requires s.consumer.ReadWrite?
    ensures Due(s, ConsumerStep, Consume(s))
  {
    if s.consumer.ld.SawLow? && LoadStep(s.write, s.consumer.ld).Returned? {
      LoadIsHonest(s.write, Publish(s.producer), s.consumer.ld);
    }
    hide Stored, ProducerOk, Register.Ok, Register.At, Wrap, OutcomeOk, PlayIndex;
  }

  lemma ReadRecheckIsDue(s: Live)
    requires s.consumer.ReadRecheck?
    ensures Due(s, ConsumerStep, Consume(s))
  {
    if s.consumer.ld.SawLow? && LoadStep(s.oldest, s.consumer.ld).Returned? {
      LoadIsHonest(s.oldest, Evict(s.producer), s.consumer.ld);
    }
    hide Stored, ProducerOk, Register.Ok, Register.At, Wrap, OutcomeOk, PlayIndex;
  }

  lemma ConsumeIsDue(s: Live)
    ensures Due(s, ConsumerStep, Consume(s))
  {
    if s.consumer.ReadWrite? {
      ReadWriteIsDue(s);
    } else if s.consumer.ReadRecheck? {
      ReadRecheckIsDue(s);
    } else {
      hide Inv, Register.At, LoadStep, Advance, SlotOf, Forward;
    }
  }

  /** In every interleaving, history goes only when the store is full, a push is refused exactly when
      there is also no history, a pop exactly when nothing is ahead, and a read only when its frame is
      gone or was not there yet. */
  lemma EveryRefusalIsDue(capacity: nat, mem: seq<i16>, actions: seq<Action>, a: Action)
    requires 0 < capacity < TWO31 && |mem| == 2 * capacity
    ensures Inv(Init(capacity, mem)) && Inv(Run(Init(capacity, mem), actions))
    ensures var s := Run(Init(capacity, mem), actions); Due(s, a, Step(s, a))
  {
    RunKeeps(Init(capacity, mem), actions);
    StepIsDue(Run(Init(capacity, mem), actions), a);
  }

  lemma StepIsDue(s: Live, a: Action)
    ensures Due(s, a, Step(s, a))
  {
    hide Inv, Produce, Consume, Register.At;
    match a {
      case StartPush(f) => if s.producer.Idle? { BeginIsDue(s, f); }
      case ProducerStep => ProduceIsDue(s);
      case StartPop => if s.consumer.Ready? { StartPopIsDue(s); }
      case ConsumerStep => ConsumeIsDue(s);
      case _ =>
    }
  }

  /** The frame a push has taken on and not yet logged. */
  function Underway(p: Producer): seq<Frame> {
    if p.Idle? || Publish(p) == LowWritten then [] else [p.f]
  }

  /** The frame a step takes on: a push that begins and is not refused. */
  ghost function TakenOn(s: State, a: Action, t: State): seq<Frame> {
    if a.StartPush? && s.producer.Idle? && |s.log| + 1 < TWO63 && t.outcome != Pushed(false) then [a.f] else []
  }

  lemma ProduceLogs(s: Live)
    ensures var t := Produce(s); t.log + Underway(t.producer) == s.log + Underway(s.producer)
  {
    if s.producer.Publishing? {
      AdvanceOk(s.write, s.producer.st);
    }
    assert s.write.At() == |s.log|;
    hide Inv, Register.Ok, Register.At, Advance, Forward;
  }

  lemma ConsumeLogsNothing(s: Live)
    ensures Consume(s).log == s.log && Consume(s).producer == s.producer
  {
    hide Inv, Register.At, Advance, LoadStep, SlotOf, Forward;
  }

  lemma StepLogs(s: Live, a: Action)
    requires !a.DropNewest?
    ensures var t := Step(s, a); t.log + Underway(t.producer) == s.log + Underway(s.producer) + TakenOn(s, a, t)
  {
    ProduceLogs(s);
    ConsumeLogsNothing(s);
    assert s.write.At() == |s.log|;
    hide Inv, Produce, Consume, Register.At, Sub32, StoreAt, Back;
  }

  ghost function Accepted(s: Live, actions: seq<Action>): seq<Frame>
    decreases actions
  {
    if actions == [] then []
    else
      StepKeeps(s, actions[0]);
      TakenOn(s, actions[0], Step(s, actions[0])) + Accepted(Step(s, actions[0]), actions[1..])
  }

  /** In every interleaving in which the decoder withdraws nothing, the log grows by exactly the
      frames of the pushes that were not refused, in order; the last may still be under way. */
  lemma {:induction false} EveryRunLogsThePushes(s: Live, actions: seq<Action>)
    requires forall i :: 0 <= i < |actions| ==> !actions[i].DropNewest?
    ensures Inv(Run(s, actions))
    ensures var t := Run(s, actions);
            t.log + Underway(t.producer) == s.log + Underway(s.producer) + Accepted(s, actions)
    decreases actions
  {
    hide Inv, Step, TakenOn, Underway;
    RunKeeps(s, actions);
    if actions != [] {
      StepKeeps(s, actions[0]);
      StepLogs(s, actions[0]);
      EveryRunLogsThePushes(Step(s, actions[0]), actions[1..]);
    }
  }

  /** How many accesses are left of a store, a load and the calls that make them. */
  function StoreLeft(st: Store): nat {
    match st case Settled => 4 case Bumped => 3 case EpochWritten => 2 case LowWritten => 1
  }

  function LoadLeft(ld: Load): nat {
    match ld case Fresh(_) => 4 case SawVersion(_, _, _) => 3 case SawEpoch(_, _, _, _) => 2
             case SawLow(_, _, _, _, _, _) => 1 case Returned(_) => 0
  }

  function PushLeft(p: Producer): nat {
    match p
    case Idle => 0
    case Publishing(_, st) => StoreLeft(st)
    case MovingIndex(_) => 5
    case WritingRight(_) => 6
    case WritingLeft(_) => 7
    case Evicting(_, st) => 7 + StoreLeft(st)
  }

  function CallLeft(c: Consumer): nat {
    match c
    case Ready => 0
    case PopPublish(_, st) => StoreLeft(st)
    case PopIndex(_) => 5
    case PopRight(_) => 6
    case PopLeft => 7
    case ReadRecheck(_, _, ld) => LoadLeft(ld)
    case ReadRight(_, _) => 5
    case ReadLeft(_) => 6
    case ReadWrite(_, _, ld) => 6 + LoadLeft(ld)
    case ReadOldest(_, ld) => 10 + LoadLeft(ld)
  }

  /** A load meets a store in flight, or one that ran since it read the version. */
  predicate Disturbed(r: Register, st: Store, ld: Load) {
    (ld.Fresh? && st != Settled) || (ld.SawLow? && ld.seen != r.bumps)
  }

  predicate ReadDisturbed(s: State) {
    match s.consumer
    case ReadOldest(_, ld) => Disturbed(s.oldest, Evict(s.producer), ld)
    case ReadRecheck(_, _, ld) => Disturbed(s.oldest, Evict(s.producer), ld)
    case ReadWrite(_, _, ld) => Disturbed(s.write, Publish(s.producer), ld)
    case _ => false
  }

  lemma LoadAdvances(r: Register, st: Store, ld: Load)
    requires r.Ok(st) && LoadOk(r, ld) && !ld.Returned? && !Disturbed(r, st, ld)
    ensures LoadLeft(LoadStep(r, ld)) < LoadLeft(ld)
  {
    EvenIsSettled(r, st);
    WrapIsMod(r.bumps, TWO32);
    hide Register.At;
  }

  lemma ProduceAdvances(s: Live)
    requires !s.producer.Idle?
    ensures var t := Produce(s);
            PushLeft(t.producer) < PushLeft(s.producer) && (t.producer.Idle? ==> t.outcome == Pushed(true))
  {
    hide Inv, Register.At, Forward;
  }

  lemma PopAdvances(s: Live)
    requires s.consumer.PopLeft? || s.consumer.PopRight? || s.consumer.PopIndex? || s.consumer.PopPublish?
    ensures var t := Consume(s);
            CallLeft(t.consumer) < CallLeft(s.consumer) && (t.consumer.Ready? ==> t.outcome.Popped?)
  {
    hide Inv, Register.At, Forward;
  }

  lemma ReadAdvances(s: Live)
    requires !s.consumer.Ready? && !s.consumer.PopPublish? && !ReadDisturbed(s)
    ensures var t := Consume(s);
            CallLeft(t.consumer) < CallLeft(s.consumer) && (t.consumer.Ready? ==> t.outcome.WasRead?)
  {
    match s.consumer {
      case ReadOldest(_, ld) => LoadAdvances(s.oldest, Evict(s.producer), ld);
      case ReadRecheck(_, _, ld) => LoadAdvances(s.oldest, Evict(s.producer), ld);
      case ReadWrite(_, _, ld) => LoadAdvances(s.write, Publish(s.producer), ld);
      case _ =>
    }
    hide Inv, LoadStep, SlotOf, Forward;
  }

  /** No call hangs: each access of a push or a pop leaves less of it to do, whatever the other task
      does, and so does each access of a read, but for a load that a store of that very cursor
      disturbed. A call ends with an answer. */
  lemma EveryAccessAdvances(s: Live)
    ensures !s.producer.Idle? ==>
              var t := Step(s, ProducerStep);
              PushLeft(t.producer) < PushLeft(s.producer) && (t.producer.Idle? ==> t.outcome == Pushed(true))
    ensures !s.consumer.Ready? && !ReadDisturbed(s) ==>
              var t := Step(s, ConsumerStep);
              CallLeft(t.consumer) < CallLeft(s.consumer)
              && (t.consumer.Ready? ==> t.outcome.Popped? || t.outcome.WasRead?)
  {
    hide Inv, Produce, Consume, ReadDisturbed, PushLeft, CallLeft;
    if !s.producer.Idle? { ProduceAdvances(s); }
    if s.consumer.PopLeft? || s.consumer.PopRight? || s.consumer.PopIndex? || s.consumer.PopPublish? {
      PopAdvances(s);
    } else if !s.consumer.Ready? && !ReadDisturbed(s) {
      ReadAdvances(s);
    }
  }
}
