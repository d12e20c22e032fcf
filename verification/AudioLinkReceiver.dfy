/** The receiver of the audio link as it runs: a fixed deframe buffer compacted in place, and the
    frame ring between the link task and the USB callback. */
module AudioLinkReceiver {
  import opened Audio
  import opened Words
  import opened AudioLink
  import Crc

  // ------------------------------------------------------------------ frame ring

  /** Position k of the queue lies in the slot its sequence number wraps to. */
  ghost predicate Queued(slots: seq<Frame>, read: nat, queue: seq<Frame>) {
    && |slots| == RING && |queue| <= RING
    && forall k :: 0 <= k < |queue| ==> slots[Wrap(read + k, RING)] == queue[k]
  }

  lemma EnqueueKeeps(slots: seq<Frame>, read: nat, queue: seq<Frame>, f: Frame)
    requires Queued(slots, read, queue) && |queue| < RING
    ensures Queued(slots[Wrap(read + |queue|, RING) := f], read, queue + [f])
  {
    var slots' := slots[Wrap(read + |queue|, RING) := f];
    forall k | 0 <= k < |queue| + 1 ensures slots'[Wrap(read + k, RING)] == (queue + [f])[k] {
      if k < |queue| && Wrap(read + k, RING) == Wrap(read + |queue|, RING) {
        WrapInjective(read + k, read + |queue|, RING);
      }
    }
  }

  lemma DequeueKeeps(slots: seq<Frame>, read: nat, queue: seq<Frame>)
    requires Queued(slots, read, queue) && 0 < |queue|
    ensures Queued(slots, read + 1, queue[1..]) && slots[Wrap(read, RING)] == queue[0]
  {
    assert slots[Wrap(read + 0, RING)] == queue[0];
    forall k | 0 <= k < |queue| - 1 ensures slots[Wrap(read + 1 + k, RING)] == queue[1..][k] {
      assert slots[Wrap(read + (k + 1), RING)] == queue[k + 1];
    }
  }

  /** The capacity divides 2^32, so a free-running 32-bit counter indexes the ring across its wrap. */
  lemma IndexAcrossWrap(count: nat)
    ensures Wrap(count, TWO32) % 0x1000 == Wrap(count, RING)
  {
    WrapIsMod(count, TWO32);
    WrapIsMod(count, RING);
    var q, r := Decompose(count, 0x1_0000_0000);
    var q', r' := Decompose(r, 0x1000);
    ModIs(count, q * 0x10_0000 + q', r', 0x1000);
  }

  /** One frame out: where it lies, and what the counter and the queue become. */
  lemma DequeueNext(slots: seq<Frame>, read: nat, queue: seq<Frame>, n: nat, r: u32)
    requires n < |queue| && r == Wrap(read + n, TWO32) && Queued(slots, read + n, queue[n..])
    ensures r % 0x1000 < |slots| && slots[r % 0x1000] == queue[n]
    ensures Queued(slots, read + (n + 1), queue[n + 1..]) && Add32(r, 1) == Wrap(read + (n + 1), TWO32)
  {
    IndexAcrossWrap(read + n);
    WrapMove(read + n, 1, TWO32);
    DequeueKeeps(slots, read + n, queue[n..]);
    assert queue[n..][1..] == queue[n + 1..] && |slots| == RING;
    hide Queued, Wrap;
  }

  class FrameRing {
    const slots: array<Frame>
    var writeCount: u32
    var readCount: u32
    var overruns: u32
    var underruns: u32
    ghost var read: nat
    ghost var queue: seq<Frame>

    ghost predicate Valid()
      reads this, slots
    {
      && Queued(slots[..], read, queue)
      && readCount == Wrap(read, TWO32) && writeCount == Wrap(read + |queue|, TWO32)
    }

    constructor ()
      ensures Valid() && fresh(slots) && queue == [] && overruns == 0
    {
      slots := new Frame[RING](_ => Frame(0, 0));
      writeCount, readCount, overruns, underruns := 0, 0, 0, 0;
      read, queue := 0, [];
    }

    /** Drop the newest when full; never overwrite what the reader may be copying. */
    method PushFrame(f: Frame)
      requires Valid()
      modifies this, slots
      ensures Valid()
      ensures queue == (if |old(queue)| < RING then old(queue) + [f] else old(queue))
      ensures overruns == (if |old(queue)| < RING then old(overruns) else Add32(old(overruns), 1))
      ensures underruns == old(underruns)
    {
      var w := writeCount;
      Distance32(read + |queue|, read);
      if Sub32(w, readCount) >= RING {
        overruns := Add32(overruns, 1);
        return;
      }
      hide Wrap, Sub32;
      IndexAcrossWrap(read + |queue|);
      WrapMove(read + |queue|, 1, TWO32);
      EnqueueKeeps(slots[..], read, queue, f);
      assert |queue| < RING && |slots[..]| == RING;
      hide Queued;
      ghost var before := slots[..];
      slots[w % 0x1000] := f;
      assert slots[..] == before[Wrap(read + |queue|, RING) := f];
      writeCount := Add32(w, 1);
      queue := queue + [f];
    }

    /** The reader takes what there is, oldest first, and fills the rest with silence. */
    method ReadFrames(dst: array<Frame>) returns (n: nat)
      requires Valid() && dst != slots
      modifies this, dst
      ensures Valid()
      ensures n == if dst.Length < |old(queue)| then dst.Length else |old(queue)|
      ensures forall i :: 0 <= i < dst.Length ==> dst[i] == if i < n then old(queue)[i] else Frame(0, 0)
      ensures queue == old(queue)[n..]
      ensures underruns == (if n < dst.Length then Add32(old(underruns), 1) else old(underruns))
      ensures overruns == old(overruns)
    {
      n := 0;
      if dst.Length == 0 { return; }
      var r;
      n, r := CopyOut(dst);
      hide Queued, Wrap, Add32;
      readCount := r;
      read, queue := read + n, queue[n..];
      if n < dst.Length {
        forall i | n <= i < dst.Length { dst[i] := Frame(0, 0); }
        underruns := Add32(underruns, 1);
      }
    }

    method CopyOut(dst: array<Frame>) returns (n: nat, r: u32)
      requires Valid() && dst != slots
      modifies dst
      ensures n == if dst.Length < |queue| then dst.Length else |queue|
      ensures forall i :: 0 <= i < n ==> dst[i] == queue[i]
      ensures r == Wrap(read + n, TWO32) && Queued(slots[..], read + n, queue[n..])
    {
      n, r := 0, readCount;
      Distance32(read + |queue|, read);
      // The writer drops when full, so the reader is never lapped.
      var avail := Sub32(writeCount, r);
      assert avail <= RING;
      hide Sub32;
      assert queue[0..] == queue;
      hide Queued, Wrap, Add32;
      while n < dst.Length && 0 < avail
        invariant 0 <= n <= dst.Length && n <= |queue| && avail == |queue| - n
        invariant Queued(slots[..], read + n, queue[n..]) && r == Wrap(read + n, TWO32)
        invariant forall i :: 0 <= i < n ==> dst[i] == queue[i]
      {
        DequeueNext(slots[..], read, queue, n, r);
        dst[n] := slots[r % 0x1000];
        r := Add32(r, 1);
        avail := avail - 1;
        n := n + 1;
      }
    }
  }

  // ------------------------------------------------------------------ deframer

  /** No magic before i: the scan gets to i without deciding anything. */
  lemma {:induction false} ScanSkips(s: seq<byte>, i: nat, rx: Rx)
    requires i <= |s| && (i < |s| ==> i + 4 <= |s|)
    requires forall j :: 0 <= j < i ==> !MagicAt(s, j)
    requires i == |s| ==> |s| == 0
    ensures Scan(s, rx) == Scan(s[i..], rx)
  {
    if 0 < i {
      forall j | 0 <= j < i - 1 ensures !MagicAt(s[1..], j) {
        assert !MagicAt(s, j + 1);
      }
      assert !MagicAt(s, 0);
      ScanSkips(s[1..], i - 1, rx);
      assert s[1..][i - 1..] == s[i..];
    } else {
      assert s[0..] == s;
    }
  }

  /** No magic at all: all but the last three bytes are passed over. */
  lemma {:induction false} ScanKeepsThree(s: seq<byte>, rx: Rx)
    requires forall j :: 0 <= j < |s| ==> !MagicAt(s, j)
    ensures Scan(s, rx) == Scanned(if |s| > 3 then s[|s| - 3..] else s, rx)
  {
    if |s| > 3 {
      assert !MagicAt(s, 0);
      forall j | 0 <= j < |s| - 1 ensures !MagicAt(s[1..], j) {
        assert !MagicAt(s, j + 1);
      }
      ScanKeepsThree(s[1..], rx);
    }
  }

  lemma WaitingStays(s: seq<byte>, rx: Rx)
    requires Waiting(s)
    ensures Scan(s, rx) == Scanned(s, rx) && |s| < BUFFER
  {
  }

  /** Frames entering a ring of RING frames: the newest are dropped when it is full. */
  function Enqueue(queue: seq<Frame>, frames: seq<Frame>): seq<Frame> {
    var room := if |queue| < RING then RING - |queue| else 0;
    queue + (if |frames| <= room then frames else frames[..room])
  }

  /** The frames of accepted blocks, in order. */
  function FramesOf(blocks: seq<seq<byte>>): seq<Frame>
    requires forall i :: 0 <= i < |blocks| ==> HEADER <= |blocks[i]|
    decreases blocks
  {
    if blocks == [] then [] else Frames(blocks[0][HEADER..]) + FramesOf(blocks[1..])
  }

  /** From one moment to a later one: more blocks were accepted, each at least a header long, and
      exactly their frames have entered the ring, in order, as far as it had room. */
  ghost predicate Entered(blocks: seq<seq<byte>>, queue: seq<Frame>, blocks': seq<seq<byte>>, queue': seq<Frame>) {
    && |blocks| <= |blocks'| && blocks'[..|blocks|] == blocks
    && (forall i :: |blocks| <= i < |blocks'| ==> HEADER <= |blocks'[i]|)
    && queue' == Enqueue(queue, FramesOf(blocks'[|blocks|..]))
  }

  lemma NothingEntered(blocks: seq<seq<byte>>, queue: seq<Frame>)
    ensures Entered(blocks, queue, blocks, queue)
  {
    assert blocks[..|blocks|] == blocks && blocks[|blocks|..] == [];
    assert queue + [] == queue;
  }

  lemma BlockEntered(blocks: seq<seq<byte>>, queue: seq<Frame>, b: seq<byte>)
    requires HEADER <= |b|
    ensures Entered(blocks, queue, blocks + [b], Enqueue(queue, Frames(b[HEADER..])))
  {
    hide Frames, Enqueue;
    var more := blocks + [b];
    assert more[..|blocks|] == blocks && more[|blocks|..] == [b];
    assert FramesOf([b]) == Frames(b[HEADER..]) + FramesOf([]) by { assert [b][1..] == []; }
    assert Frames(b[HEADER..]) + [] == Frames(b[HEADER..]);
  }

  /** A full ring stays full, so frames enter in any grouping alike. */
  lemma EnqueueTwice(queue: seq<Frame>, f: seq<Frame>, g: seq<Frame>)
    ensures Enqueue(Enqueue(queue, f), g) == Enqueue(queue, f + g)
  {
    var room := if |queue| < RING then RING - |queue| else 0;
    if |f| <= room {
      assert queue + f + g == queue + (f + g);
      if |f + g| > room { assert (f + g)[..room] == f + g[..room - |f|]; }
    } else {
      assert (f + g)[..room] == f[..room];
    }
  }

  lemma {:induction false} FramesOfConcat(a: seq<seq<byte>>, b: seq<seq<byte>>)
    requires forall i :: 0 <= i < |a| ==> HEADER <= |a[i]|
    requires forall i :: 0 <= i < |b| ==> HEADER <= |b[i]|
    ensures FramesOf(a + b) == FramesOf(a) + FramesOf(b)
    decreases a
  {
    hide Frames;
    if a == [] {
      assert a + b == b;
    } else {
      assert (a + b)[1..] == a[1..] + b;
      FramesOfConcat(a[1..], b);
    }
  }

  lemma EnteredTwice(
      b0: seq<seq<byte>>, q0: seq<Frame>, b1: seq<seq<byte>>, q1: seq<Frame>, b2: seq<seq<byte>>, q2: seq<Frame>)
    requires Entered(b0, q0, b1, q1) && Entered(b1, q1, b2, q2)
    ensures Entered(b0, q0, b2, q2)
  {
    hide Enqueue, FramesOf;
    assert b2[..|b1|] == b1;
    assert b2[..|b0|] == b2[..|b1|][..|b0|];
    assert b2[|b0|..] == b2[..|b1|][|b0|..] + b2[|b1|..];
    assert forall i :: |b0| <= i < |b1| ==> b2[i] == b2[..|b1|][i];
    FramesOfConcat(b1[|b0|..], b2[|b1|..]);
    EnqueueTwice(q0, FramesOf(b1[|b0|..]), FramesOf(b2[|b1|..]));
  }

  /** What receive_block accepts: a complete block with the right checksum, of any length. */
  predicate Receivable(block: seq<byte>) {
    && HEADER <= |block| && MagicAt(block, 0) && HeaderBytes(block) == HEADER && FrameCount(block) != 0
    && Total(block) <= |block|
  }

  class Receiver {
    const buf: array<byte>
    const ring: FrameRing
    var len: nat
    var counters: Counters
    ghost var blocks: seq<seq<byte>>

    ghost predicate Sound()
      reads this, buf, ring, ring.slots
    {
      buf.Length == BUFFER && len <= BUFFER && ring.Valid()
    }

    /** Between calls the buffer only holds the start of an undecided block. */
    ghost predicate Valid()
      reads this, buf, ring, ring.slots
    {
      Sound() && len < BUFFER && Waiting(buf[..len])
    }

    ghost function State(): Rx
      reads this
    {
      Rx(counters, blocks)
    }

    constructor ()
      ensures Valid() && fresh(buf) && fresh(ring) && fresh(ring.slots)
      ensures len == 0 && State() == Rx(Counters(false, 0, 0, 0, 0, 0), []) && ring.queue == []
    {
      buf := new byte[BUFFER](_ => 0);
      ring := new FrameRing();
      len, counters, blocks := 0, Counters(false, 0, 0, 0, 0, 0), [];
    }

    method Consume(bytes: nat)
      requires Sound()
      modifies buf, `len
      ensures Sound()
      ensures buf[..len] == if bytes >= old(len) then [] else old(buf[..len])[bytes..]
    {
      if bytes >= len {
        len := 0;
        return;
      }
      forall i | 0 <= i < len - bytes { buf[i] := buf[i + bytes]; }
      len := len - bytes;
    }

    method FindMagic() returns (at: int)
      requires Sound()
      ensures at >= 0 ==> MagicAt(buf[..len], at) && forall j :: 0 <= j < at ==> !MagicAt(buf[..len], j)
      ensures at < 0 ==> forall j :: 0 <= j < len ==> !MagicAt(buf[..len], j)
    {
      var i := 0;
      while i + 4 <= len
        invariant 0 <= i <= len || i == 0
        invariant forall j :: 0 <= j < i ==> !MagicAt(buf[..len], j)
        decreases len - i
      {
        if buf[i] == 0x50 && buf[i + 1] == 0x34 && buf[i + 2] == 0x48 && buf[i + 3] == 0x50 {
          return i;
        }
        i := i + 1;
      }
      at := -1;
    }

    method BlockChecksum(block: seq<byte>) returns (crc: u32)
      requires HEADER <= |block|
      ensures crc == BlockCrc(block)
    {
      hide Crc.Crc32;
      crc := Crc.Crc32OfPair(block[..16] + [0, 0, 0, 0], block[HEADER..]);
    }

    method PushAll(payload: seq<byte>)
      requires ring.Valid() && |payload| % 4 == 0
      modifies ring, ring.slots
      ensures ring.Valid() && ring.queue == Enqueue(old(ring.queue), Frames(payload))
    {
      hide Rd16, Signed16;
      var i := 0;
      assert payload[0..] == payload;
      hide Queued, Enqueue, Wrap;
      while i < |payload|
        invariant i <= |payload| && i % 4 == 0 && ring.Valid()
        invariant Enqueue(ring.queue, Frames(payload[i..])) == Enqueue(old(ring.queue), Frames(payload))
      {
        assert payload[i..][4..] == payload[i + 4..];
        assert payload[i..][..2] == payload[i..i + 2] && payload[i..][2..4] == payload[i + 2..i + 4];
        var left, right := Signed16(Rd16(payload[i..i + 2])), Signed16(Rd16(payload[i + 2..i + 4]));
        EnqueueOne(ring.queue, Frame(left, right), Frames(payload[i + 4..]));
        ring.PushFrame(Frame(left, right));
        i := i + 4;
      }
    }

    lemma EnqueueOne(queue: seq<Frame>, f: Frame, more: seq<Frame>)
      ensures Enqueue(queue, [f] + more) == Enqueue(if |queue| < RING then queue + [f] else queue, more)
    {
    }

    method ReceiveBlock(block: seq<byte>) returns (ok: bool)
      requires Sound()
      modifies `counters, `blocks, ring, ring.slots
      ensures Sound()
      ensures ok <==> Receivable(block) && CrcOk(block[..Total(block)])
      ensures ok ==> State() == Accept(old(State()), block[..Total(block)]) &&
                     ring.queue == Enqueue(old(ring.queue), Frames(block[HEADER..Total(block)]))
      ensures !ok ==> ring.queue == old(ring.queue) &&
                      State() == if Receivable(block) then CrcFailed(old(State())) else old(State())
    {
      hide Rd16, Rd32, Enqueue, Frames, BlockCrc, FrameRing.Valid, CountBlock;
      if |block| < HEADER { return false; }
      if !MagicAt(block, 0) || HeaderBytes(block) != HEADER || FrameCount(block) == 0 { return false; }
      var total := Total(block);
      if |block| < total { return false; }
      var b := block[..total];
      PrefixDecides(b, block[total..]);
      assert block == b + block[total..];
      assert b[HEADER..] == block[HEADER..total];
      hide HeaderOk;
      var crc := BlockChecksum(b);
      if crc != StampedCrc(b) {
        counters := counters.(crcErrors := Add32(counters.crcErrors, 1));
        return false;
      }
      Admit(b);
      ok := true;
    }

    method Admit(b: seq<byte>)
      requires Sound() && HEADER <= |b| && (|b| - HEADER) % 4 == 0
      modifies `counters, `blocks, ring, ring.slots
      ensures Sound() && State() == Accept(old(State()), b)
      ensures ring.queue == Enqueue(old(ring.queue), Frames(b[HEADER..]))
    {
      PushAll(b[HEADER..]);
      counters := CountBlock(counters, b);
      blocks := blocks + [b];
      hide Enqueue, Frames, FrameRing.Valid, CountBlock;
    }

    /** One round of deframe_process: false when it waits for more bytes. */
    method Round() returns (more: bool)
      requires Sound()
      modifies this, buf, ring, ring.slots
      ensures Sound() && (more ==> len < old(len)) && (!more ==> Waiting(buf[..len]))
      ensures Scan(buf[..len], State()) == Scan(old(buf[..len]), old(State()))
      ensures Entered(old(blocks), old(ring.queue), blocks, ring.queue)
    {
      NothingEntered(blocks, ring.queue);
      hide Entered;
      ghost var s, rx := buf[..len], State();
      var at := FindMagic();
      if at < 0 {
        ScanKeepsThree(s, rx);
        if len > 3 { Consume(len - 3); }
        WaitingStays(buf[..len], rx);
        return false;
      }
      ScanSkips(s, at, rx);
      if at > 0 { Consume(at); }
      assert buf[..len] == s[at..];
      more := Decide();
    }

    /** The buffer starts with a magic. */
    method Decide() returns (more: bool)
      requires Sound() && MagicAt(buf[..len], 0)
      modifies this, buf, ring, ring.slots
      ensures Sound() && (more ==> len < old(len)) && (!more ==> len == old(len) && Waiting(buf[..len]))
      ensures Scan(buf[..len], State()) == Scan(old(buf[..len]), old(State()))
      ensures Entered(old(blocks), old(ring.queue), blocks, ring.queue)
    {
      NothingEntered(blocks, ring.queue);
      hide Entered;
      if len < HEADER { return false; }
      var h := buf[..len];
      if HeaderBytes(h) != HEADER || FrameCount(h) == 0 || FrameCount(h) > MAX_FRAMES {
        Consume(1);
        return true;
      }
      var total := Total(h);
      if len < total { return false; }
      PrefixDecides(h[..total], h[total..]);
      assert h == h[..total] + h[total..];
      BlockEntered(blocks, ring.queue, h[..total]);
      var ok := ReceiveBlock(h[..total]);
      assert h[..total][..total] == h[..total] && h[..total][HEADER..] == h[..total][HEADER..total];
      Consume(if ok then total else 1);
      more := true;
      hide CrcOk, Frames, Enqueue, CountBlock;
    }

    method Process()
      requires Sound()
      modifies this, buf, ring, ring.slots
      ensures Valid()
      ensures Scanned(buf[..len], State()) == Scan(old(buf[..len]), old(State()))
      ensures Entered(old(blocks), old(ring.queue), blocks, ring.queue)
    {
      NothingEntered(blocks, ring.queue);
      hide Scan, Waiting, Entered;
      var more := true;
      while more
        invariant Sound() && (!more ==> Waiting(buf[..len]))
        invariant Scan(buf[..len], State()) == Scan(old(buf[..len]), old(State()))
        invariant Entered(old(blocks), old(ring.queue), blocks, ring.queue)
        decreases more, len
      {
        ghost var b, q := blocks, ring.queue;
        more := Round();
        EnteredTwice(old(blocks), old(ring.queue), b, q, blocks, ring.queue);
      }
      WaitingStays(buf[..len], State());
    }

    /** Copies as much of the data as fits. */
    method Fill(data: seq<byte>, at: nat) returns (chunk: nat)
      requires Valid() && at < |data|
      modifies `len, buf
      ensures Sound() && 0 < chunk <= |data| - at
      ensures buf[..len] == old(buf[..len]) + data[at..at + chunk]
    {
      var space := BUFFER - len;
      chunk := if |data| - at < space then |data| - at else space;
      forall i | 0 <= i < chunk { buf[len + i] := data[at + i]; }
      len := len + chunk;
    }

    /** One round of feed_bytes: `first` and the data up to `at` have been scanned. */
    method Take(data: seq<byte>, at: nat, ghost first: seq<byte>, ghost rx: Rx) returns (chunk: nat)
      requires Valid() && at < |data|
      requires Scanned(buf[..len], State()) == Scan(first + data[..at], rx)
      modifies this, buf, ring, ring.slots
      ensures Valid() && 0 < chunk <= |data| - at
      ensures Scanned(buf[..len], State()) == Scan(first + data[..at + chunk], rx)
      ensures Entered(old(blocks), old(ring.queue), blocks, ring.queue)
    {
      hide Scan, FrameRing.Valid, Entered, Waiting;
      chunk := Fill(data, at);
      ScanConcat(first + data[..at], data[at..at + chunk], rx);
      JoinPieces(first, data, at, chunk);
      Process();
    }

    /** However much arrives, the receiver ends as one pass over the bytes held back and the new
        ones, with exactly the frames of the newly accepted blocks in the ring. The buffer is never full after processing (`Valid`), so the forward-progress guard at
        the end of the code's loop is unreachable, and every round takes some bytes. */
    method FeedBytes(data: seq<byte>)
      requires Valid()
      modifies this, buf, ring, ring.slots
      ensures Valid()
      ensures Scanned(buf[..len], State()) == Scan(old(buf[..len]) + data, old(State()))
      ensures Entered(old(blocks), old(ring.queue), blocks, ring.queue)
    {
      NothingEntered(blocks, ring.queue);
      hide Scan, FrameRing.Valid, Entered;
      var at := 0;
      ghost var first, rx := buf[..len], State();
      WaitingStays(first, rx);
      assert first + data[..0] == first;
      while at < |data|
        invariant 0 <= at <= |data| && Valid()
        invariant Scanned(buf[..len], State()) == Scan(first + data[..at], rx)
        invariant Entered(old(blocks), old(ring.queue), blocks, ring.queue)
      {
        ghost var b, q := blocks, ring.queue;
        var chunk := Take(data, at, first, rx);
        EnteredTwice(old(blocks), old(ring.queue), b, q, blocks, ring.queue);
        at := at + chunk;
      }
      assert data[..at] == data;
    }

    lemma JoinPieces(first: seq<byte>, data: seq<byte>, at: nat, chunk: nat)
      requires at + chunk <= |data|
      ensures first + data[..at] + data[at..at + chunk] == first + data[..at + chunk]
    {
    }
  }
}
