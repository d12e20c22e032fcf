/** The P4 to S3 audio link. The sender frames blocks of PCM; the receiver reassembles them from an
    arbitrary byte stream, resynchronises after noise, and queues their frames for USB. */
module AudioLink {
  import opened Audio
  import opened Words
  import Crc

  const HEADER: nat := 20
  const MAX_FRAMES: nat := 512
  const BUFFER: nat := 2068
  const RING: nat := 4096

  // ------------------------------------------------------------------ blocks

  predicate MagicAt(s: seq<byte>, i: nat) {
    i + 4 <= |s| && s[i] == 0x50 && s[i + 1] == 0x34 && s[i + 2] == 0x48 && s[i + 3] == 0x50
  }

  function HeaderBytes(s: seq<byte>): u16 requires HEADER <= |s| { Rd16(s[4..6]) }
  function FrameCount(s: seq<byte>): u16 requires HEADER <= |s| { Rd16(s[6..8]) }
  function SampleRate(s: seq<byte>): u32 requires HEADER <= |s| { Rd32(s[8..12]) }
  function Sequence(s: seq<byte>): u32 requires HEADER <= |s| { Rd32(s[12..16]) }
  function StampedCrc(s: seq<byte>): u32 requires HEADER <= |s| { Rd32(s[16..20]) }
  function Total(s: seq<byte>): nat requires HEADER <= |s| { HEADER + 4 * FrameCount(s) }

  /** A header the deframer will wait for: the block it announces fits the buffer. */
  predicate HeaderOk(s: seq<byte>)
    requires HEADER <= |s|
  {
    HeaderBytes(s) == HEADER && 0 < FrameCount(s) <= MAX_FRAMES
  }

  /** The checksum covers the header with its own field zeroed, then the payload. */
  function BlockCrc(s: seq<byte>): u32
    requires HEADER <= |s|
  {
    Crc.Crc32(s[..16] + [0, 0, 0, 0] + s[HEADER..])
  }

  predicate CrcOk(s: seq<byte>)
    requires HEADER <= |s|
  {
    BlockCrc(s) == StampedCrc(s)
  }

  function Unsigned16(v: i16): u16 { if 0 <= v then v else v + 0x1_0000 }

  /** The stereo frames of a payload. */
  function Frames(payload: seq<byte>): seq<Frame> {
    if |payload| < 4 then []
    else [Frame(Signed16(Rd16(payload[..2])), Signed16(Rd16(payload[2..4])))] + Frames(payload[4..])
  }

  // ------------------------------------------------------------------ reference parser

  /** Receiver counters, all 32-bit. */
  datatype Counters = Counters(haveSequence: bool, lastSequence: u32, received: u32,
                               gaps: u32, crcErrors: u32, sampleRate: u32)

  /** Counters and the blocks accepted so far. */
  datatype Rx = Rx(counters: Counters, blocks: seq<seq<byte>>)

  function CountBlock(c: Counters, block: seq<byte>): Counters
    requires HEADER <= |block|
  {
    Counters(true, Sequence(block), Add32(c.received, 1),
             if c.haveSequence && Sequence(block) != Add32(c.lastSequence, 1) then Add32(c.gaps, 1) else c.gaps,
             c.crcErrors, SampleRate(block))
  }

  function Accept(rx: Rx, block: seq<byte>): Rx
    requires HEADER <= |block|
  {
    Rx(CountBlock(rx.counters, block), rx.blocks + [block])
  }

  function CrcFailed(rx: Rx): Rx {
    rx.(counters := rx.counters.(crcErrors := Add32(rx.counters.crcErrors, 1)))
  }

  datatype Scanned = Scanned(rest: seq<byte>, rx: Rx)

  /** One pass over a stream, a byte at a time: take a block where a complete good one starts, else
      move on by one byte; stop where more bytes are needed to decide. */
  function Scan(s: seq<byte>, rx: Rx): Scanned
    decreases |s|
  {
    if |s| < 4 then Scanned(s, rx)
    else if !MagicAt(s, 0) then Scan(s[1..], rx)
    else if |s| < HEADER then Scanned(s, rx)
    else if !HeaderOk(s) then Scan(s[1..], rx)
    else if |s| < Total(s) then Scanned(s, rx)
    else if CrcOk(s[..Total(s)]) then Scan(s[Total(s)..], Accept(rx, s[..Total(s)]))
    else Scan(s[1..], CrcFailed(rx))
  }

  /** Nothing more can be decided about these bytes. */
  predicate Waiting(s: seq<byte>) {
    |s| < 4 || (MagicAt(s, 0) && (|s| < HEADER || (HeaderOk(s) && |s| < Total(s))))
  }

  lemma {:induction false} ScanWaits(s: seq<byte>, rx: Rx)
    ensures Waiting(Scan(s, rx).rest) && |Scan(s, rx).rest| < BUFFER
    decreases |s|
  {
    if Waiting(s) {
    } else if !MagicAt(s, 0) || !HeaderOk(s) {
      ScanWaits(s[1..], rx);
    } else if CrcOk(s[..Total(s)]) {
      ScanWaits(s[Total(s)..], Accept(rx, s[..Total(s)]));
    } else {
      ScanWaits(s[1..], CrcFailed(rx));
    }
  }

  lemma PrefixDecides(a: seq<byte>, b: seq<byte>)
    requires 4 <= |a|
    ensures MagicAt(a + b, 0) == MagicAt(a, 0)
    ensures HEADER <= |a| ==> HeaderOk(a + b) == HeaderOk(a) && Total(a + b) == Total(a)
  {
    if HEADER <= |a| {
      assert (a + b)[4..6] == a[4..6] && (a + b)[6..8] == a[6..8];
    }
  }

  /** Scanning in two pieces, the second after what the first left over, is scanning once. */
  lemma {:induction false} ScanConcat(a: seq<byte>, b: seq<byte>, rx: Rx)
    ensures Scan(a + b, rx) == Scan(Scan(a, rx).rest + b, Scan(a, rx).rx)
    decreases |a|
  {
    if !Waiting(a) {
      PrefixDecides(a, b);
      assert (a + b)[1..] == a[1..] + b;
      if !MagicAt(a, 0) || !HeaderOk(a) {
        ScanConcat(a[1..], b, rx);
      } else {
        var n := Total(a);
        assert (a + b)[..n] == a[..n] && (a + b)[n..] == a[n..] + b;
        if CrcOk(a[..n]) {
          ScanConcat(a[n..], b, Accept(rx, a[..n]));
        } else {
          ScanConcat(a[1..], b, CrcFailed(rx));
        }
      }
    }
  }

  function Concat(chunks: seq<seq<byte>>): seq<byte> {
    if chunks == [] then [] else chunks[0] + Concat(chunks[1..])
  }

  /** The receiver fed chunk by chunk. */
  function FeedAll(st: Scanned, chunks: seq<seq<byte>>): Scanned
    decreases chunks
  {
    if chunks == [] then st else FeedAll(Scan(st.rest + chunks[0], st.rx), chunks[1..])
  }

  /** For every stream and every way of cutting it, the receiver accepts the same blocks in the same
      order, counts the same errors and gaps, and holds the same bytes back, as one pass over the
      uncut stream. */
  lemma {:induction false} ChunkingIsIrrelevant(st: Scanned, chunks: seq<seq<byte>>)
    requires Waiting(st.rest)
    ensures FeedAll(st, chunks) == Scan(st.rest + Concat(chunks), st.rx)
    decreases chunks
  {
    if chunks == [] {
      assert st.rest + [] == st.rest;
    } else {
      hide Scan, Waiting;
      var first, more := st.rest + chunks[0], Concat(chunks[1..]);
      ScanWaits(first, st.rx);
      ChunkingIsIrrelevant(Scan(first, st.rx), chunks[1..]);
      ScanConcat(first, more, st.rx);
      assert st.rest + (chunks[0] + more) == first + more;
    }
  }

  /** A complete, well-formed block with the right checksum. */
  predicate Good(b: seq<byte>) {
    HEADER <= |b| && MagicAt(b, 0) && HeaderOk(b) && |b| == Total(b) && CrcOk(b)
  }

  /** A good block starts this stream. */
  predicate Starts(s: seq<byte>) {
    HEADER <= |s| && Total(s) <= |s| && Good(s[..Total(s)])
  }

  lemma StartsScan(s: seq<byte>, rx: Rx)
    ensures Starts(s) <==> !Waiting(s) && MagicAt(s, 0) && HeaderOk(s) && CrcOk(s[..Total(s)])
    ensures Starts(s) ==> Scan(s, rx) == Scan(s[Total(s)..], Accept(rx, s[..Total(s)]))
  {
    if HEADER <= |s| && Total(s) <= |s| {
      PrefixDecides(s[..Total(s)], s[Total(s)..]);
      assert s == s[..Total(s)] + s[Total(s)..];
    }
  }

  /** The blocks a scan takes, and the bytes it passes over before each and after the last. */
  function Taken(s: seq<byte>): seq<seq<byte>>
    decreases |s|
  {
    if Waiting(s) then []
    else if Starts(s) then [s[..Total(s)]] + Taken(s[Total(s)..])
    else Taken(s[1..])
  }

  function Junk(s: seq<byte>): (j: seq<seq<byte>>)
    ensures |j| == |Taken(s)| + 1
    decreases |s|
  {
    if Waiting(s) then [[]]
    else if Starts(s) then [[]] + Junk(s[Total(s)..])
    else var j := Junk(s[1..]); [[s[0]] + j[0]] + j[1..]
  }

  /** junk[0] block[0] junk[1] block[1] ... junk[n] */
  function Interleave(junk: seq<seq<byte>>, blocks: seq<seq<byte>>): seq<byte>
    requires |junk| == |blocks| + 1
    decreases |blocks|
  {
    if blocks == [] then junk[0] else junk[0] + (blocks[0] + Interleave(junk[1..], blocks[1..]))
  }

  lemma InterleaveShift(b: byte, junk: seq<seq<byte>>, blocks: seq<seq<byte>>)
    requires |junk| == |blocks| + 1
    ensures Interleave([[b] + junk[0]] + junk[1..], blocks) == [b] + Interleave(junk, blocks)
  {
    var j := [[b] + junk[0]] + junk[1..];
    assert j[1..] == junk[1..];
    if blocks != [] {
      assert j[0] + (blocks[0] + Interleave(j[1..], blocks[1..])) ==
             [b] + (junk[0] + (blocks[0] + Interleave(junk[1..], blocks[1..])));
    }
  }

  lemma {:induction false} TakenAreAccepted(s: seq<byte>, rx: Rx)
    ensures Scan(s, rx).rx.blocks == rx.blocks + Taken(s)
    decreases |s|
  {
    StartsScan(s, rx);
    if Waiting(s) {
    } else if Starts(s) {
      TakenAreAccepted(s[Total(s)..], Accept(rx, s[..Total(s)]));
    } else {
      TakenAreAccepted(s[1..], if MagicAt(s, 0) && HeaderOk(s) then CrcFailed(rx) else rx);
    }
  }

  lemma {:induction false} TakenAreGood(s: seq<byte>)
    ensures forall i :: 0 <= i < |Taken(s)| ==> Good(Taken(s)[i])
    decreases |s|
  {
    if Waiting(s) {
    } else if Starts(s) {
      TakenAreGood(s[Total(s)..]);
    } else {
      TakenAreGood(s[1..]);
    }
  }

  /** Everything a scan passes over or takes. */
  function Used(s: seq<byte>): seq<byte> { Interleave(Junk(s), Taken(s)) }

  lemma UsedByBlock(s: seq<byte>)
    requires !Waiting(s) && Starts(s)
    ensures Used(s) == s[..Total(s)] + Used(s[Total(s)..])
  {
    BlockFirst(s[..Total(s)], Junk(s[Total(s)..]), Taken(s[Total(s)..]));
    hide Starts, Interleave;
  }

  lemma UsedByByte(s: seq<byte>)
    requires !Waiting(s) && !Starts(s)
    ensures Used(s) == [s[0]] + Used(s[1..])
  {
    InterleaveShift(s[0], Junk(s[1..]), Taken(s[1..]));
    hide Starts, Interleave;
  }

  lemma {:induction false} BytesAreKept(s: seq<byte>, rx: Rx)
    ensures s == Used(s) + Scan(s, rx).rest
    decreases |s|
  {
    StartsScan(s, rx);
    if Waiting(s) {
      assert s == [] + s;
    } else if Starts(s) {
      var block, tail := s[..Total(s)], s[Total(s)..];
      UsedByBlock(s);
      BytesAreKept(tail, Accept(rx, block));
      hide *;
      JoinKept(s, block, tail, Used(s), Used(tail), Scan(s, rx).rest);
    } else {
      UsedByByte(s);
      ghost var rx' := if MagicAt(s, 0) && HeaderOk(s) then CrcFailed(rx) else rx;
      assert Scan(s, rx) == Scan(s[1..], rx');
      BytesAreKept(s[1..], rx');
      hide *;
      JoinKept(s, [s[0]], s[1..], Used(s), Used(s[1..]), Scan(s, rx).rest);
    }
  }

  lemma JoinKept(s: seq<byte>, head: seq<byte>, tail: seq<byte>, used: seq<byte>, used': seq<byte>, rest: seq<byte>)
    requires |head| <= |s| && head == s[..|head|] && tail == s[|head|..]
    requires tail == used' + rest && used == head + used'
    ensures s == used + rest
  {
    assert s == head + tail;
  }

  lemma BlockFirst(block: seq<byte>, junk: seq<seq<byte>>, blocks: seq<seq<byte>>)
    requires |junk| == |blocks| + 1
    ensures Interleave([[]] + junk, [block] + blocks) == block + Interleave(junk, blocks)
  {
    assert ([[]] + junk)[1..] == junk && ([block] + blocks)[1..] == blocks;
  }

  /** The scan takes good blocks only, in stream order and without overlap, and accounts for every
      byte of the stream: passed over, in a block, or held back. */
  lemma ScanAccountsForStream(s: seq<byte>, rx: Rx)
    ensures Scan(s, rx).rx.blocks == rx.blocks + Taken(s)
    ensures s == Used(s) + Scan(s, rx).rest
    ensures forall i :: 0 <= i < |Taken(s)| ==> Good(Taken(s)[i])
  {
    TakenAreAccepted(s, rx);
    BytesAreKept(s, rx);
    TakenAreGood(s);
  }

  // ------------------------------------------------------------------ the sender

  /** One block as the main deck queues it, after `filler` idle zero bytes on the wire. */
  datatype Sent = Sent(filler: nat, sampleRate: u32, sequence: u32, pcm: seq<Frame>)

  predicate Sendable(b: Sent) { 0 < |b.pcm| <= 256 }

  function Payload(pcm: seq<Frame>): (p: seq<byte>)
    ensures |p| == 4 * |pcm|
  {
    if pcm == [] then []
    else Wr16(Unsigned16(pcm[0].left)) + Wr16(Unsigned16(pcm[0].right)) + Payload(pcm[1..])
  }

  function Prologue(b: Sent): (p: seq<byte>)
    requires Sendable(b)
    ensures |p| == 16
  {
    [0x50, 0x34, 0x48, 0x50] + Wr16(20) + Wr16(|b.pcm|) + Wr32(b.sampleRate) + Wr32(b.sequence)
  }

  function Build(b: Sent): (p: seq<byte>)
    requires Sendable(b)
    ensures |p| == HEADER + 4 * |b.pcm|
  {
    var payload := Payload(b.pcm);
    Prologue(b) + Wr32(Crc.Crc32(Prologue(b) + [0, 0, 0, 0] + payload)) + payload
  }

  lemma {:induction false} PayloadRoundTrip(pcm: seq<Frame>)
    ensures Frames(Payload(pcm)) == pcm
  {
    if pcm != [] {
      var p := Payload(pcm);
      assert p[..2] == Wr16(Unsigned16(pcm[0].left));
      assert p[2..4] == Wr16(Unsigned16(pcm[0].right));
      assert p[4..] == Payload(pcm[1..]);
      PayloadRoundTrip(pcm[1..]);
    }
  }

  lemma PrologueFields(b: Sent, tail: seq<byte>)
    requires Sendable(b) && 4 <= |tail|
    ensures var s := Prologue(b) + tail;
            && MagicAt(s, 0) && HeaderBytes(s) == HEADER && FrameCount(s) == |b.pcm|
            && SampleRate(s) == b.sampleRate && Sequence(s) == b.sequence
  {
    var s := Prologue(b) + tail;
    assert s[4..6] == Wr16(20);
    assert s[6..8] == Wr16(|b.pcm|);
    assert s[8..12] == Wr32(b.sampleRate);
    assert s[12..16] == Wr32(b.sequence);
  }

  /** A built block is good, carries its fields, and gives back its frames. */
  lemma BuiltIsGood(b: Sent)
    requires Sendable(b)
    ensures Good(Build(b)) && Sequence(Build(b)) == b.sequence && SampleRate(Build(b)) == b.sampleRate
    ensures Frames(Build(b)[HEADER..]) == b.pcm
  {
    var s, payload := Build(b), Payload(b.pcm);
    var stamp := Wr32(Crc.Crc32(Prologue(b) + [0, 0, 0, 0] + payload));
    PrologueFields(b, stamp + payload);
    assert s == Prologue(b) + (stamp + payload);
    assert s[..16] == Prologue(b) && s[16..20] == stamp && s[HEADER..] == payload;
    PayloadRoundTrip(b.pcm);
    hide Frames, Payload, Prologue, Crc.Crc32, Build;
  }

  function Wire(sent: seq<Sent>): seq<byte>
    requires forall i :: 0 <= i < |sent| ==> Sendable(sent[i])
  {
    if sent == [] then [] else Zeros(sent[0].filler) + (Build(sent[0]) + Wire(sent[1..]))
  }

  function AcceptAll(rx: Rx, sent: seq<Sent>): Rx
    requires forall i :: 0 <= i < |sent| ==> Sendable(sent[i])
    decreases sent
  {
    if sent == [] then rx else AcceptAll(Accept(rx, Build(sent[0])), sent[1..])
  }

  /** Idle bytes before a block are passed over. */
  lemma {:induction false} ScanSkipsZeros(n: nat, s: seq<byte>, rx: Rx)
    requires 4 <= |s|
    ensures Scan(Zeros(n) + s, rx) == Scan(s, rx)
  {
    if n == 0 {
      assert Zeros(0) + s == s;
    } else {
      assert (Zeros(n) + s)[1..] == Zeros(n - 1) + s;
      ScanSkipsZeros(n - 1, s, rx);
    }
  }

  lemma ScanTakesBlock(block: seq<byte>, tail: seq<byte>, rx: Rx)
    requires Good(block)
    ensures Scan(block + tail, rx) == Scan(tail, Accept(rx, block))
  {
    PrefixDecides(block, tail);
    var s := block + tail;
    assert s[..|block|] == block && s[|block|..] == tail;
    hide CrcOk;
  }

  /** Whatever the sender puts on the wire, with any idle filler, is received block for block. */
  lemma {:induction false} WireIsReceived(sent: seq<Sent>, rx: Rx)
    requires forall i :: 0 <= i < |sent| ==> Sendable(sent[i])
    ensures Scan(Wire(sent), rx) == Scanned([], AcceptAll(rx, sent))
    decreases sent
  {
    if sent != [] {
      BuiltIsGood(sent[0]);
      ScanSkipsZeros(sent[0].filler, Build(sent[0]) + Wire(sent[1..]), rx);
      ScanTakesBlock(Build(sent[0]), Wire(sent[1..]), rx);
      WireIsReceived(sent[1..], Accept(rx, Build(sent[0])));
      hide Scan, Accept, Good;
    }
  }

  /** How often the sender's sequence does not continue the one before it. */
  function Breaks(have: bool, last: u32, sent: seq<Sent>): nat
    decreases sent
  {
    if sent == [] then 0
    else (if have && sent[0].sequence != Add32(last, 1) then 1 else 0) + Breaks(true, sent[0].sequence, sent[1..])
  }

  lemma {:induction false} AcceptedBlocks(rx: Rx, sent: seq<Sent>)
    requires forall i :: 0 <= i < |sent| ==> Sendable(sent[i])
    ensures |AcceptAll(rx, sent).blocks| == |rx.blocks| + |sent|
    ensures AcceptAll(rx, sent).blocks[..|rx.blocks|] == rx.blocks
    ensures forall i :: 0 <= i < |sent| ==> AcceptAll(rx, sent).blocks[|rx.blocks| + i] == Build(sent[i])
    decreases sent
  {
    hide CountBlock, Build;
    if sent != [] {
      var rx' := Accept(rx, Build(sent[0]));
      AcceptedBlocks(rx', sent[1..]);
      var r := AcceptAll(rx, sent);
      assert r == AcceptAll(rx', sent[1..]);
      forall i | 0 <= i < |sent| ensures r.blocks[|rx.blocks| + i] == Build(sent[i]) {
        if i == 0 {
          assert r.blocks[..|rx'.blocks|][|rx.blocks|] == Build(sent[0]);
        } else {
          assert r.blocks[|rx'.blocks| + (i - 1)] == Build(sent[1..][i - 1]);
        }
      }
      assert r.blocks[..|rx.blocks|] == r.blocks[..|rx'.blocks|][..|rx.blocks|];
    }
  }

  lemma AddAgain(a: u32, b: nat, c: nat)
    ensures ((a + b) % 0x1_0000_0000 + c) % 0x1_0000_0000 == (a + (b + c)) % 0x1_0000_0000
  {
  }

  /** On a clean line no checksum error is counted, and exactly the breaks of the sequence and the
      blocks are, in 32 bits. */
  lemma {:induction false} AcceptedCounts(rx: Rx, sent: seq<Sent>)
    requires forall i :: 0 <= i < |sent| ==> Sendable(sent[i])
    ensures var c, c' := rx.counters, AcceptAll(rx, sent).counters;
            && c'.crcErrors == c.crcErrors
            && c'.received == (c.received + |sent|) % 0x1_0000_0000
            && c'.gaps == (c.gaps + Breaks(c.haveSequence, c.lastSequence, sent)) % 0x1_0000_0000
    decreases sent
  {
    hide Build, Good, Sequence, SampleRate, Frames;
    if sent != [] {
      BuiltIsGood(sent[0]);
      var c := rx.counters;
      var rest := Breaks(true, sent[0].sequence, sent[1..]);
      AddAgain(c.received, 1, |sent| - 1);
      AddAgain(c.gaps, 1, rest);
      AcceptedCounts(Accept(rx, Build(sent[0])), sent[1..]);
    }
  }

  /** End to end: however the wire bytes are cut into deliveries, the receiver ends with exactly the
      sender's blocks, their frames intact, no checksum error, and exactly the gaps that were sent. */
  lemma LinkDelivers(sent: seq<Sent>, chunks: seq<seq<byte>>, rx: Rx)
    requires forall i :: 0 <= i < |sent| ==> Sendable(sent[i])
    requires Concat(chunks) == Wire(sent)
    ensures var r := FeedAll(Scanned([], rx), chunks);
            && r.rest == [] && |r.rx.blocks| == |rx.blocks| + |sent|
            && (forall i :: 0 <= i < |sent| ==>
                  var block := r.rx.blocks[|rx.blocks| + i];
                  block == Build(sent[i]) && Frames(block[HEADER..]) == sent[i].pcm)
            && r.rx.counters.crcErrors == rx.counters.crcErrors
            && r.rx.counters.gaps ==
               (rx.counters.gaps + Breaks(rx.counters.haveSequence, rx.counters.lastSequence, sent)) % 0x1_0000_0000
  {
    ChunkingIsIrrelevant(Scanned([], rx), chunks);
    assert [] + Concat(chunks) == Wire(sent);
    WireIsReceived(sent, rx);
    AcceptedBlocks(rx, sent);
    AcceptedCounts(rx, sent);
    forall i | 0 <= i < |sent| ensures Frames(Build(sent[i])[HEADER..]) == sent[i].pcm {
      BuiltIsGood(sent[i]);
    }
    hide *;
  }

  // ------------------------------------------------------------------ what is counted on any line

  /** A complete block starts this stream, but for a wrong checksum. */
  predicate Spoiled(s: seq<byte>) {
    MagicAt(s, 0) && HEADER <= |s| && HeaderOk(s) && Total(s) <= |s| && !CrcOk(s[..Total(s)])
  }

  /** How many spoiled blocks a scan meets. */
  function SpoiledIn(s: seq<byte>): nat
    decreases |s|
  {
    if Waiting(s) then 0
    else if Starts(s) then SpoiledIn(s[Total(s)..])
    else (if Spoiled(s) then 1 else 0) + SpoiledIn(s[1..])
  }

  /** How often the sequence of these blocks does not continue the one before it. */
  function BlockBreaks(have: bool, last: u32, blocks: seq<seq<byte>>): nat
    requires forall i :: 0 <= i < |blocks| ==> Good(blocks[i])
    decreases blocks
  {
    if blocks == [] then 0
    else
      assert Good(blocks[0]);
      var sequence := Sequence(blocks[0]);
      (if have && sequence != Add32(last, 1) then 1 else 0) + BlockBreaks(true, sequence, blocks[1..])
  }

  lemma StepOnCounts(s: seq<byte>, rx: Rx)
    requires !Waiting(s) && !Starts(s)
    ensures Scan(s, rx) == Scan(s[1..], if Spoiled(s) then CrcFailed(rx) else rx)
  {
    StartsScan(s, rx);
  }

  /** What is counted between two states of the counters. */
  ghost predicate Counted(c: Counters, c': Counters, spoiled: nat, blocks: seq<seq<byte>>)
    requires forall i :: 0 <= i < |blocks| ==> Good(blocks[i])
  {
    && c'.crcErrors == (c.crcErrors + spoiled) % 0x1_0000_0000
    && c'.received == (c.received + |blocks|) % 0x1_0000_0000
    && c'.gaps == (c.gaps + BlockBreaks(c.haveSequence, c.lastSequence, blocks)) % 0x1_0000_0000
  }

  lemma CountedBlock(c: Counters, c': Counters, spoiled: nat, blocks: seq<seq<byte>>)
    requires blocks != [] && HEADER <= |blocks[0]| && forall i :: 0 <= i < |blocks| ==> Good(blocks[i])
    requires Counted(CountBlock(c, blocks[0]), c', spoiled, blocks[1..])
    ensures Counted(c, c', spoiled, blocks)
  {
    hide Good;
    AddAgain(c.received, 1, |blocks| - 1);
    AddAgain(c.gaps, 1, BlockBreaks(true, Sequence(blocks[0]), blocks[1..]));
  }

  lemma CountedSpoiled(rx: Rx, c': Counters, spoiled: nat, blocks: seq<seq<byte>>)
    requires forall i :: 0 <= i < |blocks| ==> Good(blocks[i])
    requires Counted(CrcFailed(rx).counters, c', spoiled, blocks)
    ensures Counted(rx.counters, c', 1 + spoiled, blocks)
  {
    hide Good, BlockBreaks;
    AddAgain(rx.counters.crcErrors, 1, spoiled);
  }

  /** Over any stream, each in 32 bits: one checksum error per spoiled block, one received block per
      block taken, and one gap per break of the sequence between blocks taken. */
  lemma {:induction false} EverythingIsCounted(s: seq<byte>, rx: Rx)
    ensures forall i :: 0 <= i < |Taken(s)| ==> Good(Taken(s)[i])
    ensures Counted(rx.counters, Scan(s, rx).rx.counters, SpoiledIn(s), Taken(s))
    decreases |s|
  {
    TakenAreGood(s);
    Unfold(s);
    hide Good, Starts, Waiting, Spoiled, Scan, Counted, Taken, SpoiledIn, CountBlock, Total;
    if Waiting(s) {
      ScanOfWaiting(s, rx);
    } else if Starts(s) {
      StartsScan(s, rx);
      EverythingIsCounted(s[Total(s)..], Accept(rx, s[..Total(s)]));
      CountedBlock(rx.counters, Scan(s, rx).rx.counters, SpoiledIn(s), Taken(s));
    } else {
      StepOnCounts(s, rx);
      EverythingIsCounted(s[1..], if Spoiled(s) then CrcFailed(rx) else rx);
      if Spoiled(s) { CountedSpoiled(rx, Scan(s, rx).rx.counters, SpoiledIn(s[1..]), Taken(s)); }
    }
  }

  lemma Unfold(s: seq<byte>)
    ensures !Waiting(s) ==> 0 < |s|
    ensures Waiting(s) ==> Taken(s) == [] && SpoiledIn(s) == 0
    ensures !Waiting(s) && Starts(s) ==>
              && HEADER <= |s| && HEADER <= Total(s) <= |s| && SpoiledIn(s) == SpoiledIn(s[Total(s)..])
              && Taken(s) == [s[..Total(s)]] + Taken(s[Total(s)..]) && Taken(s)[1..] == Taken(s[Total(s)..])
    ensures !Waiting(s) && !Starts(s) ==>
              Taken(s) == Taken(s[1..]) && SpoiledIn(s) == (if Spoiled(s) then 1 else 0) + SpoiledIn(s[1..])
  {
    hide Good, CrcOk;
  }

  lemma ScanOfWaiting(s: seq<byte>, rx: Rx)
    requires Waiting(s)
    ensures Scan(s, rx) == Scanned(s, rx) && Counted(rx.counters, rx.counters, 0, [])
  {
  }
}
