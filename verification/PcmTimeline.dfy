/** The decoded-PCM timeline of one deck: a circular store with an eviction, a playback and a
    write cursor, each split into a 32-bit low word and an epoch, and separate physical indices.

    `Timeline` is the store itself; `View` is what it refines: the log of all frames pushed, with
    two positions in it. */
module PcmTimeline {
  import opened Wrappers
  import opened Audio
  import opened Words

  // ------------------------------------------------------------------ abstract timeline

  /** Frames 0..|log| were pushed; [oldest, |log|) are retained; playback stands at `play`. */
  datatype View = View(log: seq<Frame>, oldest: nat, play: nat, capacity: nat) {

    ghost predicate Wf() {
      oldest <= play <= |log| <= oldest + capacity
    }

    predicate Refuses() {
      capacity == 0 || (|log| - oldest >= capacity && play == oldest)
    }

    function Push(f: Frame): View {
      if Refuses() then this
      else this.(log := log + [f],
                 oldest := if |log| - oldest >= capacity then oldest + 1 else oldest)
    }

    function Next(): Option<Frame> {
      if play < |log| then Some(log[play]) else None
    }

    function Pop(): View {
      if play < |log| then this.(play := play + 1) else this
    }

    function Read(seqno: nat): Option<Frame> {
      if oldest <= seqno < |log| then Some(log[seqno]) else None
    }

    predicate Seekable(seqno: nat) {
      0 < capacity && oldest <= seqno <= |log|
    }

    function Seek(seqno: nat): View {
      if Seekable(seqno) then this.(play := seqno) else this
    }

    /** How many frames a drop of `n` withdraws: never more than the forward runway. */
    function Droppable(n: nat): nat {
      if play <= |log| && n > |log| - play then |log| - play else n
    }

    function Drop(n: nat): View {
      if capacity == 0 || |log| < Droppable(n) then this
      else this.(log := log[..|log| - Droppable(n)])
    }
  }

  datatype Op = Push(f: Frame) | Pop | Seek(seqno: nat) | Drop(n: nat)

  function Apply(v: View, op: Op): View {
    match op
    case Push(f) => v.Push(f)
    case Pop => v.Pop()
    case Seek(s) => v.Seek(s)
    case Drop(n) => v.Drop(n)
  }

  function Run(v: View, ops: seq<Op>): View
    decreases ops
  {
    if ops == [] then v else Run(Apply(v, ops[0]), ops[1..])
  }

  /** What playback hands out over a run. */
  function Played(v: View, ops: seq<Op>): seq<Frame>
    decreases ops
  {
    if ops == [] then []
    else (if ops[0].Pop? && v.Next().Some? then [v.Next().value] else []) +
         Played(Apply(v, ops[0]), ops[1..])
  }

  /** Every run keeps oldest <= play <= write and a span of at most one capacity. */
  lemma {:induction false} RunKeepsOrder(v: View, ops: seq<Op>)
    requires v.Wf()
    ensures Run(v, ops).Wf() && Run(v, ops).capacity == v.capacity
    decreases ops
  {
    if ops != [] {
      RunKeepsOrder(Apply(v, ops[0]), ops[1..]);
    }
  }

  /** Frames already played survive every run that does not reposition the playhead, and what is
      played is exactly the log between the two playheads: nothing lost, repeated or reordered,
      also when the decoder takes back its runway and pushes other frames instead. */
  lemma {:induction false} RunPlaysTheLog(v: View, ops: seq<Op>)
    requires v.Wf()
    requires forall i :: 0 <= i < |ops| ==> !ops[i].Seek?
    ensures v.play <= Run(v, ops).play <= |Run(v, ops).log|
    ensures Run(v, ops).log[..v.play] == v.log[..v.play]
    ensures Played(v, ops) == Run(v, ops).log[v.play..Run(v, ops).play]
    decreases ops
  {
    RunKeepsOrder(v, ops);
    if ops != [] {
      var w := Apply(v, ops[0]);
      RunPlaysTheLog(w, ops[1..]);
      var end := Run(w, ops[1..]);
      PlayedFirst(v, ops[0], w, end, Played(w, ops[1..]));
    }
  }

  /** One operation and then what is played after it. */
  lemma PlayedFirst(v: View, op: Op, w: View, end: View, played: seq<Frame>)
    requires v.Wf() && !op.Seek? && w == Apply(v, op) && end.Wf() && w.play <= end.play
    requires end.log[..w.play] == w.log[..w.play] && played == end.log[w.play..end.play]
    ensures v.play <= w.play && end.log[..v.play] == v.log[..v.play]
    ensures (if op.Pop? && v.Next().Some? then [v.Next().value] else []) + played == end.log[v.play..end.play]
  {
    assert w.log[..v.play] == v.log[..v.play];
    assert end.log[..v.play] == end.log[..w.play][..v.play];
    if op.Pop? && v.play < |v.log| {
      assert end.log[v.play] == end.log[..w.play][v.play] == v.log[v.play];
      assert end.log[v.play..end.play] == [end.log[v.play]] + end.log[w.play..end.play];
    }
  }

  // ------------------------------------------------------------------ the store

  /** A cursor as it is stored: an epoch and a low word behind a version counter. */
  datatype Cursor = Cursor(epoch: u32, low: u32, version: u32) {

    /** cursor_load: with nobody writing, the version is even and one pass suffices. */
    function Value(): u64 { epoch * 0x1_0000_0000 + low }

    /** The words hold a cursor that stands at `at`. */
    ghost predicate At(at: nat) {
      low == Wrap(at, TWO32) && Value() == Wrap(at, TWO64)
    }

    /** cursor_store_absolute */
    function Store(value: u64): (c: Cursor)
      ensures c.Value() == value
    {
      Cursor(value / 0x1_0000_0000, value % 0x1_0000_0000, Add32(version, 2))
    }

    /** cursor_store_next: the low word alone, or the whole cursor at the wrap. */
    function Next(): Cursor {
      if low + 1 < TWO32 then this.(low := low + 1) else Store((Value() + 1) % 0x1_0000_0000_0000_0000)
    }
  }

  /** The words written for an absolute position hold it. */
  lemma StoreStands(c: Cursor, value: u64, at: nat)
    requires value == Wrap(at, TWO64)
    ensures c.Store(value).At(at)
  {
    WrapIsMod(at, TWO64);
    WrapIsMod(at, TWO32);
  }

  /** Advancing by one is right on both sides of the low word's wrap. */
  lemma NextStands(c: Cursor, at: nat)
    requires c.At(at)
    ensures c.Next().At(at + 1)
  {
    WrapMove(at, 1, TWO64);
    if c.low + 1 < TWO32 {
      WrapMove(at, 1, TWO32);
    } else {
      StoreStands(c, (c.Value() + 1) % 0x1_0000_0000_0000_0000, at + 1);
    }
  }

  /** A stored value between two stored cursors names one position between the cursors. */
  lemma Unwrapped(oldest: nat, play: nat, write: nat, value: u64) returns (s: nat)
    requires oldest <= play <= write < oldest + TWO64
    requires Wrap(oldest, TWO64) <= value <= Wrap(write, TWO64)
    ensures oldest <= s <= write && Wrap(s, TWO64) == value && write - s == Wrap(write, TWO64) - value
    ensures play - s == Wrap(play, TWO64) - value
    ensures write < TWO64 ==> s == value
  {
    hide Wrap;
    WrapIsMod(oldest, TWO64);
    WrapIsMod(play, TWO64);
    WrapIsMod(write, TWO64);
    var qo, ro := Decompose(oldest, 0x1_0000_0000_0000_0000);
    var qp, rp := Decompose(play, 0x1_0000_0000_0000_0000);
    var qw, rw := Decompose(write, 0x1_0000_0000_0000_0000);
    assert qo == qp == qw;
    s := write - (rw - value);
    WrapIsMod(s, TWO64);
    ModIs(s, qw, value, 0x1_0000_0000_0000_0000);
  }

  /** Reinterpretation of a 64-bit word as signed. */
  function Signed64(x: int): int {
    var r := x % 0x1_0000_0000_0000_0000;
    if r < TWO63 then r else r - TWO64
  }

  lemma SignedDistance(a: u64, b: u64)
    ensures -TWO63 <= a - b < TWO63 ==> Signed64(Signed64(a) - Signed64(b)) == a - b
  {
  }

  /** Slot i of the interleaved store holds frame f. */
  ghost predicate InSlot(mem: seq<i16>, i: nat, f: Frame) {
    2 * i + 1 < |mem| && mem[2 * i] == f.left && mem[2 * i + 1] == f.right
  }

  ghost predicate Stored(mem: seq<i16>, capacity: nat, log: seq<Frame>, oldest: nat) {
    && 2 * capacity == |mem|
    && forall s :: oldest <= s < |log| ==> 0 < capacity && InSlot(mem, Wrap(s, capacity), log[s])
  }

  lemma StoredShorter(mem: seq<i16>, capacity: nat, log: seq<Frame>, oldest: nat, n: nat)
    requires Stored(mem, capacity, log, oldest) && n <= |log|
    ensures Stored(mem, capacity, log[..n], oldest)
  {
    hide Wrap, InSlot;
    forall s | oldest <= s < n ensures 0 < capacity && InSlot(mem, Wrap(s, capacity), log[..n][s]) {
      assert log[..n][s] == log[s];
      assert InSlot(mem, Wrap(s, capacity), log[s]);
    }
  }

  /** Writing the slot of the next sequence number keeps every retained frame, provided fewer than
      a capacity are retained. */
  lemma StorePush(mem: seq<i16>, mem': seq<i16>, capacity: nat, log: seq<Frame>, oldest: nat, f: Frame)
    requires Stored(mem, capacity, log, oldest) && 0 < capacity
    requires oldest <= |log| < oldest + capacity
    requires |mem'| == |mem| && InSlot(mem', Wrap(|log|, capacity), f)
    requires forall i :: 0 <= i < |mem| && i / 2 != Wrap(|log|, capacity) ==> mem'[i] == mem[i]
    ensures Stored(mem', capacity, log + [f], oldest)
  {
    forall s | oldest <= s < |log| + 1 ensures InSlot(mem', Wrap(s, capacity), (log + [f])[s]) {
      if s < |log| {
        if Wrap(s, capacity) == Wrap(|log|, capacity) {
          WrapInjective(s, |log|, capacity);
        }
        assert InSlot(mem, Wrap(s, capacity), log[s]);
      }
    }
  }

  /** The stored registers stand where the view says, physical indices included. */
  ghost predicate Agrees(capacity: nat, oldest: Cursor, play: Cursor, write: Cursor,
                         playIndex: nat, writeIndex: nat, v: View) {
    && v.Wf() && capacity < TWO31 && v.capacity <= capacity
    && oldest.At(v.oldest) && play.At(v.play) && write.At(|v.log|)
    && playIndex == (if capacity == 0 then 0 else Wrap(v.play, capacity))
    && writeIndex == (if capacity == 0 then 0 else Wrap(|v.log|, capacity))
  }

  lemma ResetAgrees(c: nat, v: View)
    requires c < TWO31 && v.capacity <= c && v == View([], 0, 0, v.capacity)
    ensures Agrees(c, Cursor(0, 0, 0), Cursor(0, 0, 0), Cursor(0, 0, 0), 0, 0, v)
  {
  }

  /** Moving a physical index back by at most one capacity. */
  function Back(index: nat, capacity: nat, k: nat): int {
    if index >= k then index - k else index + capacity - k
  }

  function Forward(index: nat, capacity: nat): nat {
    if index + 1 >= capacity then 0 else index + 1
  }

  lemma PlayAgrees(c: nat, o: Cursor, p: Cursor, w: Cursor, pi: nat, wi: nat, v: View)
    requires Agrees(c, o, p, w, pi, wi, v) && v.play < |v.log|
    ensures Agrees(c, o, p.Next(), w, Forward(pi, c), wi, v.(play := v.play + 1))
  {
    WrapMove(v.play, 1, c);
    NextStands(p, v.play);
  }

  lemma AppendAgrees(c: nat, o: Cursor, p: Cursor, w: Cursor, pi: nat, wi: nat, v: View, f: Frame)
    requires Agrees(c, o, p, w, pi, wi, v) && |v.log| < v.oldest + v.capacity
    ensures Agrees(c, o, p, w.Next(), pi, Forward(wi, c), v.(log := v.log + [f]))
  {
    WrapMove(|v.log|, 1, c);
    NextStands(w, |v.log|);
  }

  lemma RewindAgrees(c: nat, o: Cursor, p: Cursor, w: Cursor, pi: nat, wi: nat, v: View, k: nat)
    requires Agrees(c, o, p, w, pi, wi, v) && 0 < k <= |v.log| - v.play
    ensures Agrees(c, o, p, w.Store((w.Value() - k) % 0x1_0000_0000_0000_0000), pi, Back(wi, c, k),
                   v.(log := v.log[..|v.log| - k]))
  {
    hide Wrap, Cursor.Store;
    WrapMove(|v.log|, 0 - k, c);
    BackInWord(|v.log|, w.Value(), k);
    StoreStands(w, (w.Value() - k) % 0x1_0000_0000_0000_0000, |v.log| - k);
    hide Cursor.Value, Cursor.At;
  }

  lemma BackInWord(at: nat, value: u64, k: nat)
    requires k <= at && value == Wrap(at, TWO64)
    ensures (value - k) % 0x1_0000_0000_0000_0000 == Wrap(at - k, TWO64)
  {
    hide Wrap;
    WrapIsMod(at, TWO64);
    WrapIsMod(at - k, TWO64);
  }

  /** Below 2^64 frames the stored words are the positions themselves. */
  lemma WordsArePositions(c: nat, o: Cursor, p: Cursor, w: Cursor, pi: nat, wi: nat, v: View)
    requires Agrees(c, o, p, w, pi, wi, v) && |v.log| < TWO64
    ensures o.Value() == v.oldest && p.Value() == v.play && w.Value() == |v.log|
  {
  }

  lemma SeekAgrees(c: nat, o: Cursor, p: Cursor, w: Cursor, pi: nat, wi: nat, v: View, seqno: u64)
    returns (s: nat)
    requires Agrees(c, o, p, w, pi, wi, v) && 0 < c && o.Value() <= seqno <= w.Value()
    requires w.Value() - seqno <= c
    ensures v.oldest <= s <= |v.log| && (|v.log| < TWO64 ==> s == seqno)
    ensures Agrees(c, o, p.Store(seqno), w, Back(wi, c, w.Value() - seqno), wi, v.(play := s))
  {
    s := Unwrapped(v.oldest, v.play, |v.log|, seqno);
    WrapMove(|v.log|, seqno - w.Value(), c);
    StoreStands(p, seqno, s);
  }

  /** The physical index found from the playhead is the slot of the number asked for. */
  lemma ReadAgrees(c: nat, o: Cursor, p: Cursor, w: Cursor, pi: nat, wi: nat, v: View, seqno: u64)
    returns (s: nat)
    requires Agrees(c, o, p, w, pi, wi, v) && 0 < c && o.Value() <= seqno < w.Value()
    ensures v.oldest <= s < |v.log| && Wrap(s, TWO64) == seqno && (|v.log| < TWO64 ==> s == seqno)
    ensures var i := pi + Signed64(Signed64(seqno) - Signed64(p.Value()));
            Wrap(s, c) == if i < 0 then i + c else if i >= c then i - c else i
  {
    hide Wrap;
    s := Unwrapped(v.oldest, v.play, |v.log|, seqno);
    SignedDistance(seqno, p.Value());
    WrapMove(v.play, s - v.play, c);
    hide Signed64;
  }

  class Timeline {
    var frames: array?<i16>
    var capacity: u32
    var oldest: Cursor
    var play: Cursor
    var write: Cursor
    var playIndex: u32
    var writeIndex: u32
    var generation: u32
    ghost var view: View

    ghost predicate Valid()
      reads this, frames
    {
      && Agrees(capacity, oldest, play, write, playIndex, writeIndex, view)
      && view.capacity == (if frames == null then 0 else capacity)
      && (frames != null ==> Stored(frames[..], capacity, view.log, view.oldest))
    }

    /** A span of 2^31 frames or more cannot be told from its 32-bit distance; such a store is
        given capacity zero and refuses everything. */
    constructor (storage: array?<i16>, capacityFrames: u32)
      requires storage != null ==> storage.Length == 2 * (if capacityFrames < TWO31 then capacityFrames else 0)
      ensures Valid()
      ensures frames == storage
      ensures view == View([], 0, 0, if storage == null || capacityFrames >= TWO31 then 0 else capacityFrames)
      ensures generation == 1
    {
      frames, capacity := storage, if capacityFrames < TWO31 then capacityFrames else 0;
      oldest, play, write := Cursor(0, 0, 0), Cursor(0, 0, 0), Cursor(0, 0, 0);
      playIndex, writeIndex, generation := 0, 0, 1;
      view := View([], 0, 0, if storage == null || capacityFrames >= TWO31 then 0 else capacityFrames);
      new;
      hide Agrees;
      ResetAgrees(capacity, view);
    }

    method Reset()
      requires Valid()
      modifies this
      ensures Valid()
      ensures frames == old(frames) && view == View([], 0, 0, old(view.capacity))
      ensures generation == if old(generation) + 1 == TWO32 then 1 else old(generation) + 1
    {
      assert capacity < TWO31 && view.capacity <= capacity;
      hide Agrees;
      oldest, play, write := Cursor(0, 0, 0), Cursor(0, 0, 0), Cursor(0, 0, 0);
      playIndex, writeIndex := 0, 0;
      ResetAgrees(capacity, View([], 0, 0, view.capacity));
      generation := Add32(generation, 1);
      if generation == 0 { generation := 1; }
      view := View([], 0, 0, view.capacity);
    }

    /** The hot-path distances are the true ones whatever the cursors' wrap. */
    function HistoryFrames(): (n: u32)
      requires Valid()
      reads this, frames
      ensures n == view.play - view.oldest
    {
      Distance32(view.play, view.oldest);
      Sub32(play.low, oldest.low)
    }

    function FutureFrames(): (n: u32)
      requires Valid()
      reads this, frames
      ensures n == |view.log| - view.play
    {
      Distance32(|view.log|, view.play);
      Sub32(write.low, play.low)
    }

    function UsedFrames(): (n: u32)
      requires Valid()
      reads this, frames
      ensures n == |view.log| - view.oldest
    {
      Distance32(|view.log|, view.oldest);
      Sub32(write.low, oldest.low)
    }

    method Push(left: i16, right: i16) returns (ok: bool)
      requires Valid()
      modifies this, frames
      ensures Valid() && frames == old(frames)
      ensures ok <==> !old(view).Refuses()
      ensures view == old(view).Push(Frame(left, right))
      ensures !ok && frames != null ==> frames[..] == old(if frames == null then [] else frames[..])
    {
      if frames == null || capacity == 0 { return false; }
      if UsedFrames() >= capacity {
        if HistoryFrames() == 0 { return false; }
        EvictOldest();
      }
      Append(left, right);
      ok := true;
    }

    method EvictOldest()
      requires Valid() && view.oldest < view.play
      modifies this
      ensures Valid() && frames == old(frames) && capacity == old(capacity)
      ensures view == old(view).(oldest := old(view).oldest + 1)
    {
      NextStands(oldest, view.oldest);
      oldest := oldest.Next();
      view := view.(oldest := view.oldest + 1);
    }

    method Append(left: i16, right: i16)
      requires Valid() && |view.log| < view.oldest + view.capacity
      modifies this, frames
      ensures Valid() && frames == old(frames)
      ensures view == old(view).(log := old(view).log + [Frame(left, right)])
    {
      var index := writeIndex;
      ghost var before := frames[..];
      frames[index * 2] := left;
      frames[index * 2 + 1] := right;
      StorePush(before, frames[..], capacity, view.log, view.oldest, Frame(left, right));
      AppendAgrees(capacity, oldest, play, write, playIndex, writeIndex, view, Frame(left, right));
      writeIndex := Forward(index, capacity);
      write := write.Next();
      view := view.(log := view.log + [Frame(left, right)]);
    }

    /** Random access by 64-bit sequence number. A frame that is returned is always the one logged
        at a number congruent to `seqno`; up to 2^64 frames that is `seqno` itself. */
    method Read(seqno: u64) returns (out: Option<Frame>)
      requires Valid()
      ensures |view.log| < TWO64 ==> out == view.Read(seqno)
      ensures out.Some? ==> exists s :: view.oldest <= s < |view.log| && Wrap(s, TWO64) == seqno && view.log[s] == out.value
    {
      hide Wrap, Cursor.Value;
      if |view.log| < TWO64 { WordsArePositions(capacity, oldest, play, write, playIndex, writeIndex, view); }
      if frames == null || capacity == 0 { return None; }
      if seqno < oldest.Value() || seqno >= write.Value() { return None; }
      ghost var s := ReadAgrees(capacity, oldest, play, write, playIndex, writeIndex, view, seqno);
      var index: int := playIndex + Signed64(Signed64(seqno) - Signed64(play.Value()));
      if index < 0 { index := index + capacity; }
      if index >= capacity { index := index - capacity; }
      assert InSlot(frames[..], Wrap(s, capacity), view.log[s]);
      out := Some(Frame(frames[index * 2], frames[index * 2 + 1]));
      if seqno < oldest.Value() { out := None; }
    }

    method Pop() returns (out: Option<Frame>)
      requires Valid()
      modifies this
      ensures Valid() && frames == old(frames)
      ensures out == old(view).Next()
      ensures view == old(view).Pop()
    {
      if FutureFrames() == 0 { return None; }
      var index := playIndex;
      assert InSlot(frames[..], Wrap(view.play, capacity), view.log[view.play]);
      out := Some(Frame(frames[index * 2], frames[index * 2 + 1]));
      PlayAgrees(capacity, oldest, play, write, playIndex, writeIndex, view);
      hide Wrap, Agrees, Stored, InSlot, Cursor.Next;
      playIndex := Forward(index, capacity);
      play := play.Next();
      view := view.(play := view.play + 1);
    }

    method SetPlayhead(seqno: u64) returns (ok: bool)
      requires Valid()
      modifies this
      ensures Valid() && frames == old(frames)
      ensures |old(view).log| < TWO64 && frames != null ==>
                ok == old(view).Seekable(seqno) && view == old(view).Seek(seqno)
      ensures !ok ==> view == old(view)
    {
      hide Wrap, Cursor.Value;
      if |view.log| < TWO64 { WordsArePositions(capacity, oldest, play, write, playIndex, writeIndex, view); }
      if capacity == 0 || seqno < oldest.Value() || seqno > write.Value() { return false; }
      var back := write.Value() - seqno;
      if back > capacity { return false; }
      ghost var s := SeekAgrees(capacity, oldest, play, write, playIndex, writeIndex, view, seqno);
      hide Wrap, Agrees, Stored, Cursor.Store;
      playIndex := Back(writeIndex, capacity, back);
      play := play.Store(seqno);
      view := view.(play := s);
      ok := true;
    }

    /** The scratch coordinate: 0 is the newest retained frame. */
    method SetPlayheadFramesBack(framesBack: u32) returns (ok: bool)
      requires Valid()
      modifies this
      ensures Valid() && frames == old(frames)
      ensures |old(view).log| < TWO64 && frames != null ==>
                ok == (framesBack < |old(view).log| - old(view).oldest) &&
                view == if ok then old(view).(play := |old(view).log| - 1 - framesBack) else old(view)
      ensures !ok ==> view == old(view)
    {
      hide Wrap, Cursor.Value, Cursor.At, Stored;
      if |view.log| < TWO64 { WordsArePositions(capacity, oldest, play, write, playIndex, writeIndex, view); }
      var used := UsedFrames();
      if used == 0 || framesBack >= used { return false; }
      var target := (write.Value() - 1 - framesBack) % 0x1_0000_0000_0000_0000;
      ok := SetPlayhead(target);
    }

    /** Withdraw up to `n` of the newest frames, never one that playback has reached. */
    method DropNewest(n: u32) returns (dropped: u32)
      requires Valid()
      modifies this
      ensures Valid() && frames == old(frames)
      ensures dropped == if old(view).capacity == 0 then 0 else old(view).Droppable(n)
      ensures view == old(view).Drop(n)
    {
      if frames == null || capacity == 0 || n == 0 { return 0; }
      var runway := FutureFrames();
      dropped := if n > runway then runway else n;
      if dropped == 0 { return; }
      Rewind(dropped);
    }

    method Rewind(dropped: u32)
      requires Valid() && 0 < dropped <= |view.log| - view.play
      modifies this
      ensures Valid() && frames == old(frames)
      ensures view == old(view).(log := old(view).log[..|old(view).log| - dropped])
    {
      hide Wrap, Cursor.Value, Cursor.Store, Cursor.At, InSlot, Stored;
      RewindAgrees(capacity, oldest, play, write, playIndex, writeIndex, view, dropped);
      hide Agrees, Back;
      if frames != null { StoredShorter(frames[..], capacity, view.log, view.oldest, |view.log| - dropped); }
      writeIndex := Back(writeIndex, capacity, dropped);
      var absolute := (write.Value() - dropped) % 0x1_0000_0000_0000_0000;
      write := write.Store(absolute);
      view := view.(log := view.log[..|view.log| - dropped]);
    }
  }
}
