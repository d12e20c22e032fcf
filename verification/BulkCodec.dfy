/** The 0xA6 bulk frames of the control link: builders, the streaming parser and the decoders. */
module BulkCodec {
  import opened Wrappers
  import opened Words
  import opened Crc
  import opened Memory

  const START: byte := 0xA6
  const MAX_PAYLOAD := 128
  const HEADER_LEN := 4
  const CRC_LEN := 2
  const MAX_FRAME := 134
  const CHUNK_HDR := 4
  const CHUNK_MAX := 124
  const BEGIN_LEN := 12
  const STATUS_LEN := 5
  const PRODUCT_MAX := 32
  const DESC_LEN := 42
  const VERSION_MAX := 32
  const REPORT_LEN := 34

  const TYPE_DESCRIPTOR: byte := 0x01
  const TYPE_BEGIN: byte := 0x02
  const TYPE_CHUNK: byte := 0x03
  const TYPE_END: byte := 0x04
  const TYPE_ACK: byte := 0x05
  const TYPE_NACK: byte := 0x06
  const TYPE_ACTIVATE: byte := 0x07
  const TYPE_STATUS: byte := 0x08
  const TYPE_CLEAR: byte := 0x09
  const TYPE_FIRMWARE: byte := 0x0A

  datatype Message =
    | Descriptor(vid: u16, pid: u16, caps: u16, epoch: u32, product: seq<byte>)
    | Begin(total: u32, crc: u32, vid: u16, pid: u16)
    | Chunk(offset: u32, data: seq<byte>)
    | Simple(kind: byte)
    | Ack(acked: byte)
    | Nack(nacked: byte, reason: byte)
    | Status(state: byte, vid: u16, pid: u16)
    | Firmware(slot: byte, state: byte, version: seq<byte>)

  // ------------------------------------------------------------------ frames

  /** A string in a fixed field: what precedes its first NUL. */
  function CString(field: seq<byte>): seq<byte>
    decreases field
  {
    if field == [] || field[0] == 0 then [] else [field[0]] + CString(field[1..])
  }

  /** A string fits its field when it holds no NUL and is no longer than the field. */
  predicate Fits(text: seq<byte>, width: nat) {
    |text| <= width && forall i :: 0 <= i < |text| ==> text[i] != 0
  }

  /** What a builder copies of a string: up to its first NUL, and no more than the field holds. */
  function Cut(text: seq<byte>, width: nat): (t: seq<byte>)
    ensures |t| <= width
  {
    var s := CString(text);
    if |s| > width then s[..width] else s
  }

  /** What a builder accepts: a chunk carries 1 to 124 bytes. */
  predicate Buildable(m: Message) {
    m.Chunk? ==> 0 < |m.data| <= CHUNK_MAX
  }

  /** The message as it travels, its strings cut to their fields. */
  function Carried(m: Message): Message {
    match m
    case Descriptor(_, _, _, _, product) => m.(product := Cut(product, PRODUCT_MAX))
    case Firmware(_, _, version) => m.(version := Cut(version, VERSION_MAX))
    case _ => m
  }

  lemma {:induction false} CStringFits(text: seq<byte>)
    ensures Fits(CString(text), |CString(text)|) && |CString(text)| <= |text|
    ensures Fits(text, |text|) ==> CString(text) == text
    decreases text
  {
    if text != [] && text[0] != 0 { CStringFits(text[1..]); }
  }

  /** A string that fits its field is carried whole. */
  lemma {:induction false} CarriedWhole(m: Message)
    requires m.Descriptor? ==> Fits(m.product, PRODUCT_MAX)
    requires m.Firmware? ==> Fits(m.version, VERSION_MAX)
    ensures Carried(m) == m
  {
    if m.Descriptor? { CStringFits(m.product); }
    if m.Firmware? { CStringFits(m.version); }
  }

  function TypeOf(m: Message): byte {
    match m
    case Descriptor(_, _, _, _, _) => TYPE_DESCRIPTOR
    case Begin(_, _, _, _) => TYPE_BEGIN
    case Chunk(_, _) => TYPE_CHUNK
    case Simple(kind) => kind
    case Ack(_) => TYPE_ACK
    case Nack(_, _) => TYPE_NACK
    case Status(_, _, _) => TYPE_STATUS
    case Firmware(_, _, _) => TYPE_FIRMWARE
  }

  function Payload(m: Message): (p: seq<byte>)
    requires Buildable(m)
    ensures |p| <= MAX_PAYLOAD
  {
    match m
    case Descriptor(vid, pid, caps, epoch, product) =>
      var text := Cut(product, PRODUCT_MAX);
      Wr16(vid) + Wr16(pid) + Wr16(caps) + Wr32(epoch) + text + Zeros(PRODUCT_MAX - |text|)
    case Begin(total, crc, vid, pid) => Wr32(total) + Wr32(crc) + Wr16(vid) + Wr16(pid)
    case Chunk(offset, data) => Wr32(offset) + data
    case Simple(_) => []
    case Ack(acked) => [acked]
    case Nack(nacked, reason) => [nacked, reason]
    case Status(state, vid, pid) => [state] + Wr16(vid) + Wr16(pid)
    case Firmware(slot, state, version) =>
      var text := Cut(version, VERSION_MAX);
      [slot, state] + text + Zeros(VERSION_MAX - |text|)
  }

  function Frame(kind: byte, sequence: byte, payload: seq<byte>): (f: seq<byte>)
    requires |payload| <= MAX_PAYLOAD
    ensures |f| == HEADER_LEN + |payload| + CRC_LEN
  {
    [START] + Covered(kind, sequence, payload) + Wr16(Crc16(Covered(kind, sequence, payload)))
  }

  /** The bytes the checksum covers. */
  function Covered(kind: byte, sequence: byte, payload: seq<byte>): (c: seq<byte>)
    requires |payload| <= MAX_PAYLOAD
    ensures |c| == 3 + |payload|
  {
    [kind, sequence, |payload|] + payload
  }

  function FrameOf(m: Message, sequence: byte): seq<byte>
    requires Buildable(m)
  {
    Frame(TypeOf(m), sequence, Payload(m))
  }

  // ------------------------------------------------------------------ the parser

  /** `held` is the part of the buffer below pos. */
  datatype Parser = Parser(held: seq<byte>, total: nat)

  datatype Outcome = Nothing | Complete(frame: seq<byte>) | Bad

  const IDLE := Parser([], 0)

  /** The bytes of a frame whose checksum is right. */
  predicate GoodFrame(f: seq<byte>) {
    && HEADER_LEN + CRC_LEN <= |f| <= MAX_FRAME && f[0] == START && |f| == HEADER_LEN + f[3] as int + CRC_LEN
    && Rd16(f[|f| - 2..]) == Crc16(f[1..|f| - 2])
  }

  /** Between two bytes the parser is idle or inside a frame it has not completed. */
  predicate Between(p: Parser) {
    && |p.held| < MAX_FRAME
    && (p.held != [] ==> p.held[0] == START)
    && (|p.held| < HEADER_LEN ==> p.total == 0)
    && (|p.held| >= HEADER_LEN ==>
          && p.held[3] <= MAX_PAYLOAD
          && p.total == HEADER_LEN + p.held[3] as int + CRC_LEN
          && |p.held| < p.total)
  }

  function Feed(p: Parser, b: byte): (r: (Parser, Outcome))
    requires Between(p)
    ensures Between(r.0)
  {
    if p.held == [] then (if b == START then Parser([b], 0) else IDLE, Nothing)
    else
      var held := p.held + [b];
      if |held| == HEADER_LEN && held[3] > MAX_PAYLOAD then (IDLE, Bad)
      else
        var total := if |held| == HEADER_LEN then HEADER_LEN + held[3] as int + CRC_LEN else p.total;
        if total == 0 || |held| < total then (Parser(held, total), Nothing)
        else if Rd16(held[total - 2..]) == Crc16(held[1..total - 2]) then (IDLE, Complete(held))
        else (IDLE, Bad)
  }

  function FeedAll(p: Parser, s: seq<byte>): (r: (Parser, seq<Outcome>))
    requires Between(p)
    ensures Between(r.0) && |r.1| == |s|
    decreases s
  {
    if s == [] then (p, [])
    else
      var (q, o) := Feed(p, s[0]);
      var (last, os) := FeedAll(q, s[1..]);
      (last, [o] + os)
  }

  lemma {:induction false} FeedConcat(p: Parser, a: seq<byte>, b: seq<byte>)
    requires Between(p)
    ensures FeedAll(p, a + b).0 == FeedAll(FeedAll(p, a).0, b).0
    ensures FeedAll(p, a + b).1 == FeedAll(p, a).1 + FeedAll(FeedAll(p, a).0, b).1
    decreases a
  {
    hide Feed, Between;
    if a == [] {
      assert a + b == b;
    } else {
      assert (a + b)[1..] == a[1..] + b;
      FeedConcat(Feed(p, a[0]).0, a[1..], b);
    }
  }

  /** Silence until the last byte, which completes the frame. */
  function Delivery(f: seq<byte>): (o: seq<Outcome>)
    requires f != []
    ensures |o| == |f|
  {
    seq(|f| - 1, i => Nothing) + [Complete(f)]
  }

  /** The parser k bytes into a good frame. */
  function Inside(f: seq<byte>, k: nat): Parser
    requires k < |f|
  {
    Parser(f[..k], if k < HEADER_LEN then 0 else |f|)
  }

  lemma InsideStep(f: seq<byte>, k: nat)
    requires GoodFrame(f) && k < |f|
    ensures Between(Inside(f, k))
    ensures Feed(Inside(f, k), f[k]) == if k + 1 < |f| then (Inside(f, k + 1), Nothing) else (IDLE, Complete(f))
  {
    hide Crc16;
    assert f[..k] + [f[k]] == f[..k + 1];
    assert f[..|f|] == f && f[..1] == [f[0]];
    assert k >= HEADER_LEN ==> f[..k][3] == f[3];
  }

  lemma {:induction false} InsideRun(f: seq<byte>, k: nat)
    requires GoodFrame(f) && k < |f|
    ensures Between(Inside(f, k))
    ensures FeedAll(Inside(f, k), f[k..]) == (IDLE, Delivery(f)[k..])
    decreases |f| - k
  {
    hide Feed, Between, GoodFrame, Inside;
    InsideStep(f, k);
    assert f[k..][1..] == f[k + 1..];
    if k + 1 < |f| {
      InsideRun(f, k + 1);
      assert Delivery(f)[k..] == [Nothing] + Delivery(f)[k + 1..];
    } else {
      EmptyFeed();
      assert f[k..][1..] == [];
      assert Delivery(f)[k..] == [Complete(f)] + [];
    }
  }

  lemma FrameIsGood(kind: byte, sequence: byte, payload: seq<byte>)
    requires |payload| <= MAX_PAYLOAD
    ensures var f := Frame(kind, sequence, payload);
            GoodFrame(f) && f[1] == kind && f[2] == sequence && f[4..|f| - 2] == payload
  {
    hide Crc16;
    var f := Frame(kind, sequence, payload);
    var covered := Covered(kind, sequence, payload);
    assert f[1..|f| - 2] == covered;
    assert f[|f| - 2..] == Wr16(Crc16(covered));
    assert f[1] == covered[0] && f[2] == covered[1] && f[3] == covered[2];
    assert f[4..|f| - 2] == covered[3..] == payload;
  }

  function Stream(frames: seq<seq<byte>>): seq<byte>
    decreases frames
  {
    if frames == [] then [] else frames[0] + Stream(frames[1..])
  }

  function Deliveries(frames: seq<seq<byte>>): seq<Outcome>
    requires forall i :: 0 <= i < |frames| ==> frames[i] != []
    decreases frames
  {
    if frames == [] then [] else Delivery(frames[0]) + Deliveries(frames[1..])
  }

  /** Good frames sent back to back come out one by one, each exactly at its last byte. */
  lemma {:induction false} StreamIsDelivered(frames: seq<seq<byte>>)
    requires forall i :: 0 <= i < |frames| ==> frames[i] != [] && GoodFrame(frames[i])
    ensures FeedAll(IDLE, Stream(frames)) == (IDLE, Deliveries(frames))
    decreases frames
  {
    hide Feed, GoodFrame, FeedAll, Delivery;
    if frames == [] {
      EmptyFeed();
    } else {
      var f := frames[0];
      InsideRun(f, 0);
      assert f[..0] == [] && f[0..] == f && Delivery(f)[0..] == Delivery(f);
      FeedConcat(IDLE, f, Stream(frames[1..]));
      StreamIsDelivered(frames[1..]);
    }
  }

  lemma QuietStep(p: Parser, b: byte)
    requires Between(p) && b != START
    ensures Feed(p, b).0 == IDLE || (p.held != [] && |Feed(p, b).0.held| == |p.held| + 1)
    ensures p == IDLE ==> Feed(p, b).0 == IDLE
  {
  }

  lemma {:induction false} QuietComesToRest(p: Parser, quiet: seq<byte>)
    requires Between(p) && forall i :: 0 <= i < |quiet| ==> quiet[i] != START
    requires p == IDLE || |p.held| + |quiet| >= MAX_FRAME
    ensures FeedAll(p, quiet).0 == IDLE
    decreases quiet
  {
    hide Feed;
    if quiet != [] {
      QuietStep(p, quiet[0]);
      QuietComesToRest(Feed(p, quiet[0]).0, quiet[1..]);
    }
  }

  /** However a damaged stream has left the parser, at most one frame's length of bytes that start no
      frame later it takes every good frame again. */
  lemma {:induction false} RecoversFromAnything(p: Parser, quiet: seq<byte>, frames: seq<seq<byte>>)
    requires Between(p) && |quiet| >= MAX_FRAME && forall i :: 0 <= i < |quiet| ==> quiet[i] != START
    requires forall i :: 0 <= i < |frames| ==> frames[i] != [] && GoodFrame(frames[i])
    ensures FeedAll(p, quiet + Stream(frames)).0 == IDLE
    ensures FeedAll(p, quiet + Stream(frames)).1 == FeedAll(p, quiet).1 + Deliveries(frames)
  {
    hide FeedAll, GoodFrame, Between;
    QuietComesToRest(p, quiet);
    FeedConcat(p, quiet, Stream(frames));
    StreamIsDelivered(frames);
  }

  lemma EmptyFeed()
    ensures FeedAll(IDLE, []) == (IDLE, [])
  {
  }

  /** What the parser holds is the end of what it has received. */
  ghost predicate Recent(part: seq<byte>, seen: seq<byte>) {
    |part| <= |seen| && part == seen[|seen| - |part|..]
  }

  lemma OneByte(p: Parser, before: seq<byte>, b: byte)
    requires Between(p) && Recent(p.held, before)
    ensures Recent(Feed(p, b).0.held, before + [b])
    ensures Feed(p, b).1.Complete? ==> GoodFrame(Feed(p, b).1.frame) && Recent(Feed(p, b).1.frame, before + [b])
  {
    hide Crc16;
    var seen := before + [b];
    assert seen[|seen| - (|p.held| + 1)..] == p.held + [b];
    assert p.held == [] ==> p.held + [b] == [b];
  }

  /** Whatever arrives, a completed frame is a good one and its bytes are the last ones received. */
  lemma {:induction false} OnlyGoodFramesComplete(p: Parser, before: seq<byte>, s: seq<byte>, i: nat)
    requires Between(p) && i < |s| && Recent(p.held, before)
    ensures var o := FeedAll(p, s).1[i];
            o.Complete? ==> GoodFrame(o.frame) && Recent(o.frame, before + s[..i + 1])
    decreases s
  {
    hide Feed, GoodFrame, Recent, Between;
    OneByte(p, before, s[0]);
    if i > 0 {
      OnlyGoodFramesComplete(Feed(p, s[0]).0, before + [s[0]], s[1..], i - 1);
      assert before + [s[0]] + s[1..][..i] == before + s[..i + 1];
    } else {
      assert [s[0]] == s[..1];
    }
  }

  // ------------------------------------------------------------------ the decoders

  predicate TypeAndLength(f: seq<byte>, kind: byte, length: nat) {
    |f| == HEADER_LEN + length + CRC_LEN && f[0] == START && f[1] == kind && f[3] == length
  }

  function DecodeDescriptor(f: seq<byte>): Option<Message> {
    if !TypeAndLength(f, TYPE_DESCRIPTOR, DESC_LEN) then None
    else Some(Descriptor(Rd16(f[4..6]), Rd16(f[6..8]), Rd16(f[8..10]), Rd32(f[10..14]), CString(f[14..46])))
  }

  function DecodeBegin(f: seq<byte>): Option<Message> {
    if !TypeAndLength(f, TYPE_BEGIN, BEGIN_LEN) then None
    else Some(Begin(Rd32(f[4..8]), Rd32(f[8..12]), Rd16(f[12..14]), Rd16(f[14..16])))
  }

  function DecodeChunk(f: seq<byte>): Option<Message> {
    if |f| < HEADER_LEN || f[0] != START || f[1] != TYPE_CHUNK then None
    else if |f| != HEADER_LEN + f[3] as int + CRC_LEN || f[3] <= CHUNK_HDR then None
    else Some(Chunk(Rd32(f[4..8]), f[8..|f| - 2]))
  }

  function DecodeAck(f: seq<byte>): Option<Message> {
    if !TypeAndLength(f, TYPE_ACK, 1) then None else Some(Ack(f[4]))
  }

  function DecodeNack(f: seq<byte>): Option<Message> {
    if !TypeAndLength(f, TYPE_NACK, 2) then None else Some(Nack(f[4], f[5]))
  }

  function DecodeStatus(f: seq<byte>): Option<Message> {
    if !TypeAndLength(f, TYPE_STATUS, STATUS_LEN) then None
    else Some(Status(f[4], Rd16(f[5..7]), Rd16(f[7..9])))
  }

  function DecodeFirmware(f: seq<byte>): Option<Message> {
    if !TypeAndLength(f, TYPE_FIRMWARE, REPORT_LEN) then None
    else Some(Firmware(f[4], f[5], CString(f[6..38])))
  }

  lemma {:induction false} CStringOfField(text: seq<byte>, n: nat)
    requires Fits(text, |text|)
    ensures CString(text + Zeros(n)) == text
    decreases text
  {
    if text == [] {
      assert text + Zeros(n) == Zeros(n);
    } else {
      assert (text + Zeros(n))[1..] == text[1..] + Zeros(n);
      CStringOfField(text[1..], n);
    }
  }

  lemma FramePayload(m: Message, sequence: byte)
    requires Buildable(m)
    ensures var f := FrameOf(m, sequence);
            && GoodFrame(f) && f[1] == TypeOf(m) && |f| == HEADER_LEN + |Payload(m)| + CRC_LEN
            && f[3] as int == |Payload(m)| && f[4..|f| - 2] == Payload(m)
            && forall i :: 4 <= i < |f| - 2 ==> f[i] == Payload(m)[i - 4]
  {
    hide Crc16, Wr16, Wr32, Zeros;
    FrameIsGood(TypeOf(m), sequence, Payload(m));
    var f := FrameOf(m, sequence);
    forall i | 4 <= i < |f| - 2 ensures f[i] == Payload(m)[i - 4] {
      assert f[4..|f| - 2][i - 4] == f[i];
    }
    hide Payload, GoodFrame, Frame;
  }

  lemma {:induction false} BeginRoundTrip(m: Message, sequence: byte)
    requires m.Begin?
    ensures DecodeBegin(FrameOf(m, sequence)) == Some(m)
  {
    hide Crc16, Rd16, Rd32, Wr16, Wr32, Frame;
    FramePayload(m, sequence);
    var f, p := FrameOf(m, sequence), Payload(m);
    assert f[4..8] == p[0..4] == Wr32(m.total);
    assert f[8..12] == p[4..8] == Wr32(m.crc);
    assert f[12..14] == p[8..10] == Wr16(m.vid);
    assert f[14..16] == p[10..12] == Wr16(m.pid);
  }

  lemma {:induction false} ChunkRoundTrip(m: Message, sequence: byte)
    requires m.Chunk? && Buildable(m)
    ensures DecodeChunk(FrameOf(m, sequence)) == Some(m)
  {
    hide Crc16, Rd16, Rd32, Wr16, Wr32, Frame;
    FramePayload(m, sequence);
    var f, p := FrameOf(m, sequence), Payload(m);
    assert f[4..8] == p[0..4] == Wr32(m.offset);
    assert f[8..|f| - 2] == p[4..] == m.data;
  }

  lemma DescriptorFields(m: Message)
    requires m.Descriptor?
    ensures var p, text := Payload(m), Cut(m.product, PRODUCT_MAX);
            && |p| == DESC_LEN && p[0..2] == Wr16(m.vid) && p[2..4] == Wr16(m.pid) && p[4..6] == Wr16(m.caps)
            && p[6..10] == Wr32(m.epoch) && p[10..42] == text + Zeros(PRODUCT_MAX - |text|)
  {
    hide Wr16, Wr32, Cut, Zeros;
  }

  /** What is cut into a field is read back from it. */
  lemma FieldReadsBack(text: seq<byte>, width: nat)
    ensures var t := Cut(text, width); CString(t + Zeros(width - |t|)) == t
  {
    CStringFits(text);
    var t := Cut(text, width);
    hide CString, Zeros;
    CStringOfField(t, width - |t|);
  }

  lemma StartsFrame(f: seq<byte>)
    requires GoodFrame(f)
    ensures |f| >= HEADER_LEN + CRC_LEN && f[0] == START
  {
  }

  lemma {:induction false} DescriptorRoundTrip(m: Message, sequence: byte)
    requires m.Descriptor?
    ensures DecodeDescriptor(FrameOf(m, sequence)) == Some(Carried(m))
  {
    hide Crc16, Rd16, Rd32, Wr16, Wr32, Frame, CString, Cut, GoodFrame, FrameOf;
    FramePayload(m, sequence);
    var f, p := FrameOf(m, sequence), Payload(m);
    DescriptorFields(m);
    assert f[4..6] == p[0..2] && f[6..8] == p[2..4] && f[8..10] == p[4..6] && f[10..14] == p[6..10] && f[14..46] == p[10..42];
    FieldReadsBack(m.product, PRODUCT_MAX);
    StartsFrame(f);
    hide Payload;
  }

  lemma {:induction false} StatusRoundTrip(m: Message, sequence: byte)
    requires m.Status?
    ensures DecodeStatus(FrameOf(m, sequence)) == Some(m)
  {
    hide Crc16, Rd16, Rd32, Wr16, Wr32, Frame;
    FramePayload(m, sequence);
    var f, p := FrameOf(m, sequence), Payload(m);
    assert f[5..7] == p[1..3] == Wr16(m.vid);
    assert f[7..9] == p[3..5] == Wr16(m.pid);
  }

  lemma {:induction false} FirmwareRoundTrip(m: Message, sequence: byte)
    requires m.Firmware?
    ensures DecodeFirmware(FrameOf(m, sequence)) == Some(Carried(m))
  {
    hide Crc16, Frame, CString, Cut, GoodFrame, FrameOf, Zeros;
    FramePayload(m, sequence);
    var f, p := FrameOf(m, sequence), Payload(m);
    var text := Cut(m.version, VERSION_MAX);
    assert f[6..38] == p[2..34] == text + Zeros(VERSION_MAX - |text|);
    FieldReadsBack(m.version, VERSION_MAX);
    StartsFrame(f);
  }

  /** The decoder that belongs to a message; frames without payload have none. */
  function DecodeLike(m: Message, f: seq<byte>): Option<Message> {
    match m
    case Descriptor(_, _, _, _, _) => DecodeDescriptor(f)
    case Begin(_, _, _, _) => DecodeBegin(f)
    case Chunk(_, _) => DecodeChunk(f)
    case Simple(_) => None
    case Ack(_) => DecodeAck(f)
    case Nack(_, _) => DecodeNack(f)
    case Status(_, _, _) => DecodeStatus(f)
    case Firmware(_, _, _) => DecodeFirmware(f)
  }

  /** A built frame is good, and its own decoder recovers every field. */
  lemma {:induction false} RoundTrip(m: Message, sequence: byte)
    requires Buildable(m)
    ensures GoodFrame(FrameOf(m, sequence))
    ensures !m.Simple? ==> DecodeLike(m, FrameOf(m, sequence)) == Some(Carried(m))
  {
    hide Frame, CString, Crc16, DecodeBegin, DecodeChunk, DecodeDescriptor, DecodeStatus, DecodeFirmware;
    FramePayload(m, sequence);
    match m
    case Descriptor(_, _, _, _, _) => DescriptorRoundTrip(m, sequence);
    case Begin(_, _, _, _) => BeginRoundTrip(m, sequence);
    case Chunk(_, _) => ChunkRoundTrip(m, sequence);
    case Simple(_) =>
    case Ack(_) =>
    case Nack(_, _) =>
    case Status(_, _, _) => StatusRoundTrip(m, sequence);
    case Firmware(_, _, _) => FirmwareRoundTrip(m, sequence);
  }

  predicate AllBuildable(ms: seq<Message>) {
    forall i :: 0 <= i < |ms| ==> Buildable(ms[i])
  }

  /** The frames of a list of messages, numbered by the link's wrapping sequence byte. */
  function Built(ms: seq<Message>, sequence: byte): (fs: seq<seq<byte>>)
    requires AllBuildable(ms)
    ensures |fs| == |ms|
    decreases ms
  {
    if ms == [] then [] else [FrameOf(ms[0], sequence)] + Built(ms[1..], if sequence == 255 then 0 else sequence + 1)
  }

  lemma {:induction false} BuiltAt(ms: seq<Message>, sequence: byte, i: nat)
    requires AllBuildable(ms) && i < |ms|
    ensures exists n: byte :: Built(ms, sequence)[i] == FrameOf(ms[i], n)
    decreases ms
  {
    hide FrameOf, Buildable;
    if i > 0 {
      var next: byte := if sequence == 255 then 0 else sequence + 1;
      BuiltAt(ms[1..], next, i - 1);
      assert Built(ms, sequence)[i] == Built(ms[1..], next)[i - 1];
    } else {
      assert Built(ms, sequence)[0] == FrameOf(ms[0], sequence);
    }
  }

  /** The frames the parser completed. */
  function Completed(os: seq<Outcome>): seq<seq<byte>>
    decreases os
  {
    if os == [] then [] else (if os[0].Complete? then [os[0].frame] else []) + Completed(os[1..])
  }

  /** Whatever bytes arrive, the frames handed on are good ones. */
  lemma {:induction false} CompletedAreGood(p: Parser, s: seq<byte>)
    requires Between(p)
    ensures forall i :: 0 <= i < |Completed(FeedAll(p, s).1)| ==> GoodFrame(Completed(FeedAll(p, s).1)[i])
    decreases s
  {
    hide GoodFrame, Feed, Between;
    if s != [] {
      OneByte(p, p.held, s[0]) by { assert Recent(p.held, p.held); }
      var (q, o) := Feed(p, s[0]);
      CompletedAreGood(q, s[1..]);
      assert FeedAll(p, s).1 == [o] + FeedAll(q, s[1..]).1;
      assert ([o] + FeedAll(q, s[1..]).1)[1..] == FeedAll(q, s[1..]).1;
      hide FeedAll, Recent;
    }
  }

  lemma {:induction false} CompletedConcat(a: seq<Outcome>, b: seq<Outcome>)
    ensures Completed(a + b) == Completed(a) + Completed(b)
    decreases a
  {
    if a == [] {
      assert a + b == b;
    } else {
      assert (a + b)[1..] == a[1..] + b;
      CompletedConcat(a[1..], b);
    }
  }

  lemma {:induction false} SilenceCompletesNothing(os: seq<Outcome>)
    requires forall i :: 0 <= i < |os| ==> os[i] == Nothing
    ensures Completed(os) == []
    decreases os
  {
    if os != [] { SilenceCompletesNothing(os[1..]); }
  }

  lemma {:induction false} DeliveriesCompleted(frames: seq<seq<byte>>)
    requires forall i :: 0 <= i < |frames| ==> frames[i] != []
    ensures Completed(Deliveries(frames)) == frames
    decreases frames
  {
    if frames != [] {
      var f := frames[0];
      CompletedConcat(Delivery(f), Deliveries(frames[1..]));
      DeliveriesCompleted(frames[1..]);
      SilenceCompletesNothing(Delivery(f)[..|f| - 1]);
      CompletedConcat(Delivery(f)[..|f| - 1], [Complete(f)]);
      assert Delivery(f) == Delivery(f)[..|f| - 1] + [Complete(f)];
    }
  }

  /** Any list of built frames, fed byte by byte, completes exactly those frames, each at its last
      byte, and each decodes to its message as carried. */
  lemma {:induction false} BuiltStreamIsReceived(ms: seq<Message>, sequence: byte)
    requires AllBuildable(ms)
    ensures var frames := Built(ms, sequence);
            && (forall i :: 0 <= i < |frames| ==> frames[i] != [] && GoodFrame(frames[i]))
            && FeedAll(IDLE, Stream(frames)) == (IDLE, Deliveries(frames))
            && Completed(FeedAll(IDLE, Stream(frames)).1) == frames
            && forall i :: 0 <= i < |ms| && !ms[i].Simple? ==> DecodeLike(ms[i], frames[i]) == Some(Carried(ms[i]))
  {
    hide GoodFrame, DecodeLike, FeedAll, Deliveries, Stream, Built, FrameOf;
    var frames := Built(ms, sequence);
    forall i | 0 <= i < |ms|
      ensures frames[i] != [] && GoodFrame(frames[i])
      ensures !ms[i].Simple? ==> DecodeLike(ms[i], frames[i]) == Some(Carried(ms[i]))
    {
      BuiltAt(ms, sequence, i);
      var n: byte :| frames[i] == FrameOf(ms[i], n);
      RoundTrip(ms[i], n);
      GoodIsNonEmpty(frames[i]);
    }
    StreamIsDelivered(frames);
    DeliveriesCompleted(frames);
  }

  lemma GoodIsNonEmpty(f: seq<byte>)
    requires GoodFrame(f)
    ensures f != []
  {
  }

  // ------------------------------------------------------------------ the code that fills buffers

  /** Header and checksum around a payload already in place. */
  method Finalize(out: array<byte>, kind: byte, sequence: byte, payload: seq<byte>) returns (n: nat)
    requires |payload| <= MAX_PAYLOAD && HEADER_LEN + |payload| + CRC_LEN <= out.Length
    requires out[HEADER_LEN..HEADER_LEN + |payload|] == payload
    modifies out
    ensures n == HEADER_LEN + |payload| + CRC_LEN && out[..n] == Frame(kind, sequence, payload)
    ensures out[n..] == old(out[n..])
  {
    var length := |payload|;
    PutHeader(out, kind, sequence, length);
    CoveredInPlace(out[..], kind, sequence, payload);
    hide Crc16, Wr16, Covered;
    var crc := BulkCrc16(out[1..4 + length]);
    PutTwo(out, 4 + length, Wr16(crc as int));
    n := HEADER_LEN + length + CRC_LEN;
  }

  method PutHeader(out: array<byte>, kind: byte, sequence: byte, length: byte)
    requires HEADER_LEN <= out.Length
    modifies out
    ensures out[0] == START && out[1] == kind && out[2] == sequence && out[3] == length
    ensures out[HEADER_LEN..] == old(out[HEADER_LEN..])
  {
    out[0], out[1], out[2], out[3] := START, kind, sequence, length;
  }

  method PutTwo(out: array<byte>, at: nat, pair: seq<byte>)
    requires |pair| == 2 && at + 2 <= out.Length
    modifies out
    ensures out[..at + 2] == old(out[..at]) + pair && out[at + 2..] == old(out[at + 2..])
  {
    out[at] := pair[0];
    out[at + 1] := pair[1];
  }

  lemma CoveredInPlace(out: seq<byte>, kind: byte, sequence: byte, payload: seq<byte>)
    requires |payload| <= MAX_PAYLOAD && HEADER_LEN + |payload| <= |out|
    requires out[0] == START && out[1] == kind && out[2] == sequence && out[3] as int == |payload|
    requires out[4..4 + |payload|] == payload
    ensures out[1..4 + |payload|] == Covered(kind, sequence, payload)
    ensures out[..4 + |payload|] == [START] + Covered(kind, sequence, payload)
  {
    var c := out[1..4 + |payload|];
    assert c == [out[1], out[2], out[3]] + out[4..4 + |payload|];
  }

  /** The builders: nothing is reported unless the message and the frame fit. */
  method Build(out: array<byte>, m: Message, sequence: byte) returns (n: nat)
    modifies out
    ensures n == 0 <==> !Buildable(m) || out.Length < HEADER_LEN + |Payload(m)| + CRC_LEN
    ensures n > 0 ==> n <= out.Length && out[..n] == FrameOf(m, sequence) && out[n..] == old(out[n..])
    ensures n == 0 ==> out[..] == old(out[..])
  {
    hide Payload, Frame;
    if !Buildable(m) { return 0; }
    var payload := Payload(m);
    if out.Length < HEADER_LEN + |payload| + CRC_LEN { return 0; }
    Copy(out, HEADER_LEN, payload);
    assert out[HEADER_LEN..HEADER_LEN + |payload|] == payload;
    ghost var mid := out[..];
    n := Finalize(out, TypeOf(m), sequence, payload);
    assert mid[n..] == old(out[n..]);
  }

  class BulkParser {
    const buf: array<byte>
    var pos: nat
    var total: nat

    ghost predicate Valid()
      reads this, buf
    {
      buf.Length == MAX_FRAME && pos < MAX_FRAME && Between(View())
    }

    ghost function View(): Parser
      requires pos <= buf.Length
      reads this, buf
    {
      Parser(buf[..pos], total)
    }

    constructor ()
      ensures Valid() && View() == IDLE && fresh(buf)
    {
      buf := new byte[MAX_FRAME];
      pos, total := 0, 0;
    }

    /** One received byte: -1 for a bad frame, the length of a completed one, else 0. A completed
        frame is left at the front of the buffer. */
    method FeedByte(b: byte) returns (r: int)
      requires Valid()
      modifies this, buf
      ensures Valid()
      ensures View() == Feed(old(View()), b).0
      ensures match Feed(old(View()), b).1
              case Nothing => r == 0
              case Bad => r == -1
              case Complete(f) => r == |f| && 0 < r <= buf.Length && buf[..r] == f
    {
      hide Crc16, Rd16;
      if pos == 0 {
        if b == START {
          buf[0] := b;
          pos, total := 1, 0;
          assert buf[..1] == [b];
        }
        return 0;
      }
      buf[pos] := b;
      pos := pos + 1;
      assert buf[..pos] == old(buf[..pos]) + [b];
      if pos == HEADER_LEN {
        if buf[3] > MAX_PAYLOAD {
          pos, total := 0, 0;
          return -1;
        }
        total := HEADER_LEN + buf[3] as int + CRC_LEN;
      }
      if total == 0 || pos < total { return 0; }
      r := Judge();
    }

    /** The frame is complete: its checksum decides. */
    method Judge() returns (r: int)
      requires buf.Length == MAX_FRAME && HEADER_LEN + CRC_LEN <= pos == total <= MAX_FRAME
      modifies this
      ensures pos == 0 && total == 0
      ensures var held := old(buf[..pos]);
              r == if Rd16(held[|held| - 2..]) == Crc16(held[1..|held| - 2]) then |held| else -1
    {
      hide Crc16, Rd16;
      var length := total;
      var expected := Rd16(buf[length - 2..length]);
      var got := BulkCrc16(buf[1..length - 2]);
      assert buf[..pos][length - 2..] == buf[length - 2..length];
      assert buf[..pos][1..length - 2] == buf[1..length - 2];
      pos, total := 0, 0;
      return if got as int == expected then length else -1;
    }
  }
}
