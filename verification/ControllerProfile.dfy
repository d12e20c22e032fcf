/** Controller profiles: the compiler that emits the S3CP binary form, and the parser on the control
    board that must read it back. */
module ControllerProfile {
  import opened Wrappers
  import opened Words
  import opened Crc

  const VERSION := 2
  const HEADER := 32
  const INPUT_SIZE := 16
  const OUTPUT_SIZE := 12
  const MAX_INPUTS := 320
  const MAX_OUTPUTS := 160
  const MAX_SLOTS := 40
  const MAX_PROFILE := 16384
  const NO_SLOT := 0xFF
  const MAGIC: seq<byte> := [0x53, 0x33, 0x43, 0x50]

  const NOTE_BUTTON := 0
  const NOTE_VALUE := 1
  const CC_REL64 := 2
  const CC_REL_2C := 3
  const CC14_MSB := 4
  const CC14_LSB := 5
  const CC7_ABS := 6
  const STATE_PAIR := 7

  const FLAG_REPLAY := 1
  const FLAG_MEMBER_B := 2

  // ------------------------------------------------------------------ the compiler's tables

  /** A table entry as the compiler holds it: numbers of any size, checked when packed. */
  datatype Entry = Entry(
    status: int, data1: int, raw: int, slot: int, semType: int, semId: int,
    flags: int, base: int, mask: int, lut: seq<int>)

  datatype Output = Output(led: int, deck: int, kind: int, status: int, data1: int, off: int, on: int, blink: int)

  /** The semantic type and id an event name stands for. */
  datatype Semantic = Semantic(semType: int, semId: int)

  datatype Member = Member(status: int, data1: int)

  /** The inputs of a profile, their event names looked up; None is a name that is not known. */
  datatype Input =
    | Button(status: int, data1: int, event: Option<Semantic>)
    | ExtAction(status: int, data1: int, event: Option<Semantic>, action: Option<int>)
    | PadBank(status: int, first: int, count: int, event: Option<Semantic>, mode: Option<int>, shifted: bool)
    | Encoder(status: int, data1: int, event: Option<Semantic>, rel64: bool)
    | Cc14(status: int, msb: int, lsb: int, event: Option<Semantic>, replay: bool)
    | Cc7(status: int, data1: int, event: Option<Semantic>, replay: bool)
    | StatePair(event: Option<Semantic>, values: seq<Option<int>>, members: seq<Member>)
    | UnknownInput

  datatype OutItem =
    | NoteBank(bank: Option<(int, nat)>, count: int, statuses: seq<int>, first: int, off: int, on: int, blink: int)
    | PerDeck(led: Option<int>, cc: bool, statuses: seq<int>, data1: int, off: int, on: int, blink: int)
    | OneDeck(led: Option<int>, cc: bool, deck: Option<int>, status: int, data1: int, off: int, on: int, blink: int)

  datatype Profile = Profile(
    schemaOk: bool, vid: int, pid: int, decks: int,
    ledFeedback: bool, usbAudio: bool, jogTouch: bool, pitch14: bool,
    inputs: seq<Input>, outputs: seq<OutItem>)

  const NO_LUT := [-1, -1, -1, -1]

  function PlainEntry(status: int, data1: int, raw: int, e: Semantic, flags: int): Entry {
    Entry(status, data1, raw, NO_SLOT, e.semType, e.semId, flags, 0, 0, NO_LUT)
  }

  function ValueEntry(status: int, data1: int, e: Semantic, base: int): Entry {
    Entry(status, data1, NOTE_VALUE, NO_SLOT, e.semType, e.semId, 0, base, 0x80, NO_LUT)
  }

  function PairEntry(status: int, data1: int, raw: int, e: Semantic, slot: int, flags: int, lut: seq<int>): Entry {
    Entry(status, data1, raw, slot, e.semType, e.semId, flags, 0, 0, lut)
  }

  function PadBase(mode: int, pad: nat, shifted: bool): int {
    pad % 8 + mode % 8 * 8 + if shifted then 0x40 else 0
  }

  function Pads(i: Input, pad: nat): seq<Entry>
    requires i.PadBank? && i.event.Some? && i.mode.Some?
    decreases i.count - pad
  {
    if pad >= i.count then []
    else [ValueEntry(i.status, i.first + pad, i.event.value, PadBase(i.mode.value, pad, i.shifted))] + Pads(i, pad + 1)
  }

  function Lut(values: seq<Option<int>>): seq<int> {
    seq(|values|, k requires 0 <= k < |values| => if values[k].Some? then values[k].value else -1)
  }

  /** The entries of one input and the pair slots in use after it; None if the compiler raises. */
  function CompileInput(i: Input, slots: nat): Option<(seq<Entry>, nat)> {
    if i.UnknownInput? || i.event.None? then None
    else
      var e := i.event.value;
      match i
      case Button(status, data1, _) => Some(([PlainEntry(status, data1, NOTE_BUTTON, e, 0)], slots))
      case ExtAction(status, data1, _, action) =>
        if action.None? then None else Some(([ValueEntry(status, data1, e, action.value % 128)], slots))
      case PadBank(_, _, _, _, mode, _) => if mode.None? then None else Some((Pads(i, 0), slots))
      case Encoder(status, data1, _, rel64) =>
        Some(([PlainEntry(status, data1, if rel64 then CC_REL64 else CC_REL_2C, e, 0)], slots))
      case Cc14(status, msb, lsb, _, replay) =>
        if slots + 1 > MAX_SLOTS then None
        else
          var flags := if replay then FLAG_REPLAY else 0;
          Some(([PairEntry(status, msb, CC14_MSB, e, slots, flags, NO_LUT),
                 PairEntry(status, lsb, CC14_LSB, e, slots, flags, NO_LUT)], slots + 1))
      case Cc7(status, data1, _, replay) =>
        Some(([PlainEntry(status, data1, CC7_ABS, e, if replay then FLAG_REPLAY else 0)], slots))
      case StatePair(_, values, members) =>
        if slots + 1 > MAX_SLOTS || |values| != 4 || |members| != 2 then None
        else
          Some(([PairEntry(members[0].status, members[0].data1, STATE_PAIR, e, slots, 0, Lut(values)),
                 PairEntry(members[1].status, members[1].data1, STATE_PAIR, e, slots, FLAG_MEMBER_B, Lut(values))], slots + 1))
  }

  function CompileInputs(inputs: seq<Input>, slots: nat): Option<(seq<Entry>, nat)>
    decreases inputs
  {
    if inputs == [] then Some(([], slots))
    else
      match CompileInput(inputs[0], slots)
      case None => None
      case Some((entries, slots1)) =>
        match CompileInputs(inputs[1..], slots1)
        case None => None
        case Some((rest, last)) => Some((entries + rest, last))
  }

  /** One output per deck status. */
  function ForDecks(led: int, kind: int, statuses: seq<int>, data1: int, off: int, on: int, blink: int): seq<Output> {
    seq(|statuses|, d requires 0 <= d < |statuses| => Output(led, d, kind, statuses[d], data1, off, on, blink))
  }

  function BankRows(o: OutItem, led: int, count: nat, i: nat): seq<Output>
    requires o.NoteBank? && i <= count
    decreases count - i
  {
    if i == count then []
    else ForDecks(led + i, 0, o.statuses, o.first + i, o.off, o.on, o.blink) + BankRows(o, led, count, i + 1)
  }

  function CompileOutput(o: OutItem): Option<seq<Output>> {
    match o
    case NoteBank(bank, count, _, _, _, _, _) =>
      if bank.None? || count != bank.value.1 then None else Some(BankRows(o, bank.value.0, bank.value.1, 0))
    case PerDeck(led, cc, statuses, data1, off, on, blink) =>
      if led.None? then None else Some(ForDecks(led.value, if cc then 1 else 0, statuses, data1, off, on, blink))
    case OneDeck(led, cc, deck, status, data1, off, on, blink) =>
      if led.None? || deck.None? then None
      else Some([Output(led.value, deck.value, if cc then 1 else 0, status, data1, off, on, blink)])
  }

  function CompileOutputs(outputs: seq<OutItem>): Option<seq<Output>>
    decreases outputs
  {
    if outputs == [] then Some([])
    else
      match (CompileOutput(outputs[0]), CompileOutputs(outputs[1..]))
      case (Some(first), Some(rest)) => Some(first + rest)
      case _ => None
  }

  // ------------------------------------------------------------------ packing

  predicate U8(v: int) { 0 <= v < 256 }
  predicate U16(v: int) { 0 <= v < 0x1_0000 }

  predicate Packable(e: Entry) {
    && U8(e.status) && U8(e.data1) && U8(e.raw) && U8(e.slot) && U8(e.semType) && U8(e.semId)
    && U16(e.flags) && -0x8000 <= e.base < 0x8000 && U16(e.mask)
    && |e.lut| == 4 && forall i :: 0 <= i < 4 ==> -128 <= e.lut[i] < 128
  }

  /** The two's complement byte or halfword of a signed number. */
  function I8(v: int): byte { v % 256 }
  function I16(v: int): u16 { v % 0x1_0000 }

  function Pack(e: Entry): (p: seq<byte>)
    requires Packable(e)
    ensures |p| == INPUT_SIZE
  {
    [e.status, e.data1, e.raw, e.slot, e.semType, e.semId] + Wr16(e.flags) + Wr16(I16(e.base)) + Wr16(e.mask)
    + [I8(e.lut[0]), I8(e.lut[1]), I8(e.lut[2]), I8(e.lut[3])]
  }

  predicate PackableOutput(o: Output) {
    U8(o.led) && U8(o.deck) && U8(o.kind) && U8(o.status) && U8(o.data1) && U8(o.off) && U8(o.on) && U8(o.blink)
  }

  function PackOutput(o: Output): (p: seq<byte>)
    requires PackableOutput(o)
    ensures |p| == OUTPUT_SIZE
  {
    [o.led, o.deck, o.kind, o.status, o.data1, o.off, o.on, o.blink, 0, 0, 0, 0]
  }

  function PackAll(es: seq<Entry>): (p: seq<byte>)
    requires forall i :: 0 <= i < |es| ==> Packable(es[i])
    ensures |p| == INPUT_SIZE * |es|
    decreases es
  {
    if es == [] then [] else Pack(es[0]) + PackAll(es[1..])
  }

  function PackAllOutputs(os: seq<Output>): (p: seq<byte>)
    requires forall i :: 0 <= i < |os| ==> PackableOutput(os[i])
    ensures |p| == OUTPUT_SIZE * |os|
    decreases os
  {
    if os == [] then [] else PackOutput(os[0]) + PackAllOutputs(os[1..])
  }

  function Capabilities(p: Profile): (f: u32)
    ensures f < 16
  {
    (if p.ledFeedback then 1 else 0) + (if p.usbAudio then 2 else 0) + (if p.jogTouch then 4 else 0) + (if p.pitch14 then 8 else 0)
  }

  /** The header fields under the checksum. */
  function Tail(vid: u16, pid: u16, flags: u32, inputs: u16, outputs: u16, slots: byte, decks: byte): (t: seq<byte>)
    ensures |t| == 16
  {
    Wr16(vid) + Wr16(pid) + Wr32(flags) + Wr16(inputs) + Wr16(outputs) + [slots, decks, 0, 0]
  }

  function Blob(tail: seq<byte>, body: seq<byte>): (b: seq<byte>)
    requires |tail| == 16 && |body| < 0x1_0000
    ensures |b| == HEADER + |body|
  {
    MAGIC + Wr16(VERSION) + Wr16(HEADER) + Wr32(HEADER + |body|) + Wr32(Crc32(tail + body)) + tail + body
  }

  /** The whole compiler; None wherever it raises. */
  function Compile(p: Profile): Option<seq<byte>> {
    if !p.schemaOk then None
    else
      match (CompileInputs(p.inputs, 0), CompileOutputs(p.outputs))
      case (Some((entries, slots)), Some(outputs)) =>
        if |entries| > MAX_INPUTS || |outputs| > MAX_OUTPUTS then None
        else if !(forall i :: 0 <= i < |entries| ==> Packable(entries[i])) then None
        else if !(forall i :: 0 <= i < |outputs| ==> PackableOutput(outputs[i])) then None
        else if !(U16(p.vid) && U16(p.pid) && U8(p.decks) && U8(slots)) then None
        else
          var body := PackAll(entries) + PackAllOutputs(outputs);
          if HEADER + |body| > MAX_PROFILE then None
          else Some(Blob(Tail(p.vid, p.pid, Capabilities(p), |entries|, |outputs|, slots, p.decks), body))
      case _ => None
  }

  // ------------------------------------------------------------------ the parser

  datatype ParsedInput = ParsedInput(
    status: byte, data1: byte, raw: byte, slot: byte, semType: byte, semId: byte,
    flags: u16, base: i16, mask: u16, lut: seq<i8>)

  datatype ParsedOutput = ParsedOutput(
    led: byte, deck: byte, kind: byte, status: byte, data1: byte, off: byte, on: byte, blink: byte)

  datatype Parsed = Parsed(
    vid: u16, pid: u16, flags: u32, slots: byte, decks: byte, inputs: seq<ParsedInput>, outputs: seq<ParsedOutput>)

  datatype ParseError = BadMagic | BadVersion | BadSize | BadCrc | BadBounds

  datatype ParseResult = Ok(profile: Parsed) | Err(error: ParseError)

  function Signed8(b: byte): i8 { if b < 128 then b else b - 256 }

  function ReadInput(p: seq<byte>): ParsedInput
    requires |p| == INPUT_SIZE
  {
    ParsedInput(p[0], p[1], p[2], p[3], p[4], p[5], Rd16(p[6..8]), Signed16(Rd16(p[8..10])), Rd16(p[10..12]),
                [Signed8(p[12]), Signed8(p[13]), Signed8(p[14]), Signed8(p[15])])
  }

  function ReadOutput(p: seq<byte>): ParsedOutput
    requires |p| == OUTPUT_SIZE
  {
    ParsedOutput(p[0], p[1], p[2], p[3], p[4], p[5], p[6], p[7])
  }

  predicate NeedsSlot(raw: int) { raw == CC14_MSB || raw == CC14_LSB || raw == STATE_PAIR }

  predicate InputOk(e: ParsedInput, slots: nat) {
    e.raw <= STATE_PAIR && (NeedsSlot(e.raw) ==> e.slot != NO_SLOT && e.slot < slots)
  }

  predicate OutputOk(o: ParsedOutput) { o.kind <= 1 }

  function ReadInputs(p: seq<byte>, n: nat): (r: seq<ParsedInput>)
    requires |p| == INPUT_SIZE * n
    ensures |r| == n
    decreases n
  {
    if n == 0 then [] else [ReadInput(p[..INPUT_SIZE])] + ReadInputs(p[INPUT_SIZE..], n - 1)
  }

  function ReadOutputs(p: seq<byte>, n: nat): (r: seq<ParsedOutput>)
    requires |p| == OUTPUT_SIZE * n
    ensures |r| == n
    decreases n
  {
    if n == 0 then [] else [ReadOutput(p[..OUTPUT_SIZE])] + ReadOutputs(p[OUTPUT_SIZE..], n - 1)
  }

  predicate AllInputsOk(es: seq<ParsedInput>, slots: nat) { forall i :: 0 <= i < |es| ==> InputOk(es[i], slots) }

  predicate AllOutputsOk(os: seq<ParsedOutput>) { forall i :: 0 <= i < |os| ==> OutputOk(os[i]) }

  function Parse(data: seq<byte>): ParseResult {
    if |data| < HEADER then Err(BadSize)
    else if data[..4] != MAGIC then Err(BadMagic)
    else if Rd16(data[4..6]) != VERSION || Rd16(data[6..8]) != HEADER then Err(BadVersion)
    else if Rd32(data[8..12]) != |data| then Err(BadSize)
    else if Crc32(data[16..]) != Rd32(data[12..16]) then Err(BadCrc)
    else ParseTables(data)
  }

  function ParseTables(data: seq<byte>): ParseResult
    requires |data| >= HEADER
  {
    var inputs, outputs, slots := Rd16(data[24..26]), Rd16(data[26..28]), data[28];
    if inputs > MAX_INPUTS || outputs > MAX_OUTPUTS || slots > MAX_SLOTS then Err(BadBounds)
    else if HEADER + INPUT_SIZE * inputs + OUTPUT_SIZE * outputs != |data| then Err(BadSize)
    else
      var split := HEADER + INPUT_SIZE * inputs;
      var es := ReadInputs(data[HEADER..split], inputs);
      var os := ReadOutputs(data[split..], outputs);
      if !AllInputsOk(es, slots) || !AllOutputsOk(os) then Err(BadBounds)
      else Ok(ReadHeader(data, es, os))
  }

  function ReadHeader(data: seq<byte>, es: seq<ParsedInput>, os: seq<ParsedOutput>): Parsed
    requires |data| >= HEADER
  {
    Parsed(Rd16(data[16..18]), Rd16(data[18..20]), Rd32(data[20..24]), data[28], data[29], es, os)
  }

  /** Every blob the parser accepts has exactly the length its tables need, the right checksum, and
      only pair slots below the announced count. */
  lemma {:induction false} AcceptedIsInBounds(data: seq<byte>)
    ensures match Parse(data)
            case Err(_) => true
            case Ok(p) =>
              && |data| == HEADER + INPUT_SIZE * |p.inputs| + OUTPUT_SIZE * |p.outputs|
              && Crc32(data[16..]) == Rd32(data[12..16])
              && |p.inputs| <= MAX_INPUTS && |p.outputs| <= MAX_OUTPUTS && p.slots <= MAX_SLOTS
              && (forall i :: 0 <= i < |p.inputs| ==>
                    p.inputs[i].raw <= STATE_PAIR && (NeedsSlot(p.inputs[i].raw) ==> p.inputs[i].slot < p.slots))
              && (forall i :: 0 <= i < |p.outputs| ==> p.outputs[i].kind <= 1)
  {
    hide Crc32, Rd16, Rd32;
  }

  // ------------------------------------------------------------------ round trip

  function Seen(e: Entry): ParsedInput
    requires Packable(e)
  {
    ParsedInput(e.status, e.data1, e.raw, e.slot, e.semType, e.semId, e.flags, e.base, e.mask, e.lut)
  }

  function SeenOutput(o: Output): ParsedOutput
    requires PackableOutput(o)
  {
    ParsedOutput(o.led, o.deck, o.kind, o.status, o.data1, o.off, o.on, o.blink)
  }

  /** The tables as the parser should see them. */
  function SeenAll(es: seq<Entry>): (r: seq<ParsedInput>)
    requires forall i :: 0 <= i < |es| ==> Packable(es[i])
    ensures |r| == |es|
    ensures forall i :: 0 <= i < |es| ==> r[i] == Seen(es[i])
    decreases es
  {
    if es == [] then [] else [Seen(es[0])] + SeenAll(es[1..])
  }

  function SeenOutputs(os: seq<Output>): (r: seq<ParsedOutput>)
    requires forall i :: 0 <= i < |os| ==> PackableOutput(os[i])
    ensures |r| == |os|
    ensures forall i :: 0 <= i < |os| ==> r[i] == SeenOutput(os[i])
    decreases os
  {
    if os == [] then [] else [SeenOutput(os[0])] + SeenOutputs(os[1..])
  }

  lemma SignedRoundTrip(v: i16, w: i8)
    ensures Signed16(I16(v)) == v && Signed8(I8(w)) == w
  {
  }

  lemma EntryRoundTrip(e: Entry)
    requires Packable(e)
    ensures ReadInput(Pack(e)) == Seen(e)
  {
    hide Rd16, Wr16, Signed16, Signed8, I16, I8;
    var p := Pack(e);
    assert p[6..8] == Wr16(e.flags) && p[8..10] == Wr16(I16(e.base)) && p[10..12] == Wr16(e.mask);
    forall i | 0 <= i < 4 ensures Signed8(I8(e.lut[i])) == e.lut[i] && Signed16(I16(e.base)) == e.base {
      SignedRoundTrip(e.base, e.lut[i]);
    }
    assert e.lut == [e.lut[0], e.lut[1], e.lut[2], e.lut[3]];
  }

  lemma {:induction false} InputsRoundTrip(es: seq<Entry>)
    requires forall i :: 0 <= i < |es| ==> Packable(es[i])
    ensures ReadInputs(PackAll(es), |es|) == SeenAll(es)
    decreases es
  {
    hide Packable, Pack, ReadInput, Seen;
    if es != [] {
      InputsRoundTrip(es[1..]);
      EntryRoundTrip(es[0]);
      var p := PackAll(es);
      assert p[..INPUT_SIZE] == Pack(es[0]) && p[INPUT_SIZE..] == PackAll(es[1..]);
    }
  }

  lemma {:induction false} OutputsRoundTrip(os: seq<Output>)
    requires forall i :: 0 <= i < |os| ==> PackableOutput(os[i])
    ensures ReadOutputs(PackAllOutputs(os), |os|) == SeenOutputs(os)
    decreases os
  {
    if os != [] {
      OutputsRoundTrip(os[1..]);
      var p := PackAllOutputs(os);
      assert p[..OUTPUT_SIZE] == PackOutput(os[0]) && p[OUTPUT_SIZE..] == PackAllOutputs(os[1..]);
    }
  }

  /** What the compiler builds in: known raw types, and pair slots it has handed out. */
  predicate WellFormed(e: Entry, slots: nat) {
    0 <= e.raw <= STATE_PAIR && (NeedsSlot(e.raw) ==> 0 <= e.slot < slots)
  }

  predicate AllWellFormed(es: seq<Entry>, slots: nat) { forall i :: 0 <= i < |es| ==> WellFormed(es[i], slots) }

  lemma {:induction false} PadsAreWellFormed(i: Input, pad: nat, slots: nat)
    requires i.PadBank? && i.event.Some? && i.mode.Some?
    ensures AllWellFormed(Pads(i, pad), slots)
    decreases i.count - pad
  {
    if pad < i.count { PadsAreWellFormed(i, pad + 1, slots); }
  }

  lemma InputIsWellFormed(i: Input, slots: nat)
    requires slots <= MAX_SLOTS && CompileInput(i, slots).Some?
    ensures var (es, slots') := CompileInput(i, slots).value;
            slots <= slots' <= MAX_SLOTS && AllWellFormed(es, slots')
  {
    if i.PadBank? { PadsAreWellFormed(i, 0, slots); }
  }

  lemma {:induction false} InputsAreWellFormed(inputs: seq<Input>, slots: nat)
    requires slots <= MAX_SLOTS && CompileInputs(inputs, slots).Some?
    ensures var (es, slots') := CompileInputs(inputs, slots).value;
            slots <= slots' <= MAX_SLOTS && AllWellFormed(es, slots')
    decreases inputs
  {
    hide CompileInput;
    if inputs != [] {
      InputIsWellFormed(inputs[0], slots);
      InputsAreWellFormed(inputs[1..], CompileInput(inputs[0], slots).value.1);
    }
  }

  predicate AllKindsKnown(os: seq<Output>) { forall i :: 0 <= i < |os| ==> 0 <= os[i].kind <= 1 }

  lemma {:induction false} RowsAreKnown(o: OutItem, led: int, count: nat, i: nat)
    requires o.NoteBank? && i <= count
    ensures AllKindsKnown(BankRows(o, led, count, i))
    decreases count - i
  {
    if i < count { RowsAreKnown(o, led, count, i + 1); }
  }

  lemma {:induction false} OutputsAreKnown(outputs: seq<OutItem>)
    requires CompileOutputs(outputs).Some?
    ensures AllKindsKnown(CompileOutputs(outputs).value)
    decreases outputs
  {
    if outputs != [] {
      OutputsAreKnown(outputs[1..]);
      var o := outputs[0];
      if o.NoteBank? { RowsAreKnown(o, o.bank.value.0, o.bank.value.1, 0); }
    }
  }

  lemma BlobFields(tail: seq<byte>, body: seq<byte>)
    requires |tail| == 16 && |body| < 0x1_0000
    ensures var b := Blob(tail, body);
            && b[..4] == MAGIC && b[4..6] == Wr16(VERSION) && b[6..8] == Wr16(HEADER)
            && b[8..12] == Wr32(HEADER + |body|) && b[12..16] == Wr32(Crc32(tail + body))
            && b[16..] == tail + body && b[16..32] == tail && b[32..] == body
  {
    hide Crc32, Wr16, Wr32;
    var b := Blob(tail, body);
    assert |MAGIC| == 4;
  }

  lemma TailFields(t: seq<byte>, vid: u16, pid: u16, flags: u32, inputs: u16, outputs: u16, slots: byte, decks: byte)
    requires t == Tail(vid, pid, flags, inputs, outputs, slots, decks)
    ensures t[0..2] == Wr16(vid) && t[2..4] == Wr16(pid) && t[4..8] == Wr32(flags)
    ensures t[8..10] == Wr16(inputs) && t[10..12] == Wr16(outputs) && t[12] == slots && t[13] == decks
  {
    hide Wr16, Wr32;
  }

  /** The checks before the tables accept what the compiler emits. */
  lemma BlobPasses(tail: seq<byte>, body: seq<byte>)
    requires |tail| == 16 && |body| < 0x1_0000
    ensures Parse(Blob(tail, body)) == ParseTables(Blob(tail, body))
  {
    BlobFields(tail, body);
    hide Crc32, Wr16, Wr32, Rd16, Rd32, Blob, ParseTables;
  }

  /** The fields the parser reads through the blob are those of the header's tail. */
  lemma ThroughTail(b: seq<byte>, tail: seq<byte>)
    requires |b| >= HEADER && |tail| == 16 && b[16..32] == tail
    ensures b[16..18] == tail[0..2] && b[18..20] == tail[2..4] && b[20..24] == tail[4..8]
    ensures b[24..26] == tail[8..10] && b[26..28] == tail[10..12] && b[28] == tail[12] && b[29] == tail[13]
  {
    assert b[28] == b[16..32][12] && b[29] == b[16..32][13];
  }

  /** The two tables lie behind the header, one after the other. */
  lemma TableSlices(b: seq<byte>, p: seq<byte>, q: seq<byte>)
    requires |b| >= HEADER && b[32..] == p + q
    ensures |b| == HEADER + |p| + |q| && b[HEADER..HEADER + |p|] == p && b[HEADER + |p|..] == q
  {
    assert b[HEADER..HEADER + |p|] == b[32..][..|p|];
    assert b[HEADER + |p|..] == b[32..][|p|..];
  }

  /** The tables are accepted when they read back as acceptable entries. */
  lemma TablesAccepted(b: seq<byte>, n: nat, m: nat, es: seq<ParsedInput>, os: seq<ParsedOutput>)
    requires n <= MAX_INPUTS && m <= MAX_OUTPUTS && |b| == HEADER + INPUT_SIZE * n + OUTPUT_SIZE * m
    requires Rd16(b[24..26]) == n && Rd16(b[26..28]) == m && b[28] <= MAX_SLOTS
    requires ReadInputs(b[HEADER..HEADER + INPUT_SIZE * n], n) == es && AllInputsOk(es, b[28])
    requires ReadOutputs(b[HEADER + INPUT_SIZE * n..], m) == os && AllOutputsOk(os)
    ensures ParseTables(b) == Ok(ReadHeader(b, es, os))
  {
    hide Rd16, Rd32, ReadInputs, ReadOutputs, AllInputsOk, AllOutputsOk, ReadHeader;
  }

  lemma SeenAreOk(es: seq<Entry>, os: seq<Output>, slots: nat)
    requires slots <= MAX_SLOTS
    requires forall i :: 0 <= i < |es| ==> Packable(es[i]) && WellFormed(es[i], slots)
    requires forall i :: 0 <= i < |os| ==> PackableOutput(os[i]) && 0 <= os[i].kind <= 1
    ensures AllInputsOk(SeenAll(es), slots) && AllOutputsOk(SeenOutputs(os))
  {
    hide SeenAll, SeenOutputs;
  }

  lemma HeaderReadsBack(
      body: seq<byte>, vid: u16, pid: u16, flags: u32, n: u16, m: u16, slots: byte, decks: byte,
      es: seq<ParsedInput>, os: seq<ParsedOutput>)
    requires |body| < 0x1_0000
    ensures var b := Blob(Tail(vid, pid, flags, n, m, slots, decks), body);
            && Rd16(b[24..26]) == n && Rd16(b[26..28]) == m && b[28] == slots && b[32..] == body
            && ReadHeader(b, es, os) == Parsed(vid, pid, flags, slots, decks, es, os)
  {
    hide Crc32, Rd16, Rd32, Wr16, Wr32, Blob, Tail;
    var tail := Tail(vid, pid, flags, n, m, slots, decks);
    BlobFields(tail, body);
    TailFields(tail, vid, pid, flags, n, m, slots, decks);
    ThroughTail(Blob(tail, body), tail);
  }

  lemma TablesReadBack(b: seq<byte>, slots: byte, es: seq<Entry>, os: seq<Output>)
    requires |es| <= MAX_INPUTS && |os| <= MAX_OUTPUTS && slots <= MAX_SLOTS
    requires forall i :: 0 <= i < |es| ==> Packable(es[i]) && WellFormed(es[i], slots)
    requires forall i :: 0 <= i < |os| ==> PackableOutput(os[i]) && 0 <= os[i].kind <= 1
    requires |b| >= HEADER && b[32..] == PackAll(es) + PackAllOutputs(os)
    requires Rd16(b[24..26]) == |es| && Rd16(b[26..28]) == |os| && b[28] == slots
    ensures ParseTables(b) == Ok(ReadHeader(b, SeenAll(es), SeenOutputs(os)))
  {
    hide Rd16, Rd32, PackAll, PackAllOutputs, Packable, PackableOutput, WellFormed, SeenAll, SeenOutputs, ParseTables;
    hide ReadInputs, ReadOutputs, AllInputsOk, AllOutputsOk, ReadHeader;
    TableSlices(b, PackAll(es), PackAllOutputs(os));
    InputsRoundTrip(es);
    OutputsRoundTrip(os);
    SeenAreOk(es, os, slots);
    TablesAccepted(b, |es|, |os|, SeenAll(es), SeenOutputs(os));
  }

  /** Whatever profile the compiler accepts, the parser accepts its bytes and reads back the same
      header and the same tables, entry for entry. */
  lemma {:induction false} CompiledIsParsed(p: Profile)
    requires Compile(p).Some?
    ensures var (es, slots) := CompileInputs(p.inputs, 0).value;
            var os := CompileOutputs(p.outputs).value;
            && CompileInputs(p.inputs, 0).Some? && CompileOutputs(p.outputs).Some?
            && (forall i :: 0 <= i < |es| ==> Packable(es[i])) && (forall i :: 0 <= i < |os| ==> PackableOutput(os[i]))
            && Parse(Compile(p).value) ==
               Ok(Parsed(p.vid, p.pid, Capabilities(p), slots, p.decks, SeenAll(es), SeenOutputs(os)))
  {
    var (es, slots) := CompileInputs(p.inputs, 0).value;
    var os := CompileOutputs(p.outputs).value;
    InputsAreWellFormed(p.inputs, 0);
    OutputsAreKnown(p.outputs);
    var tail := Tail(p.vid, p.pid, Capabilities(p), |es|, |os|, slots, p.decks);
    var body := PackAll(es) + PackAllOutputs(os);
    BlobPasses(tail, body);
    HeaderReadsBack(body, p.vid, p.pid, Capabilities(p), |es|, |os|, slots, p.decks, SeenAll(es), SeenOutputs(os));
    TablesReadBack(Blob(tail, body), slots, es, os);
    hide Parse, ParseTables, Blob, Tail, Packable, PackableOutput, CompileInputs, CompileOutputs, Capabilities, Seen, SeenOutput;
  }

  // ------------------------------------------------------------------ the loops

  /** The entries before, then those of the rest. */
  function After(entries: seq<Entry>, rest: Option<(seq<Entry>, nat)>): Option<(seq<Entry>, nat)> {
    if rest.None? then None else Some((entries + rest.value.0, rest.value.1))
  }

  /** The compiler's loop over the inputs, appending entries and handing out slots. */
  method CompileInputList(inputs: seq<Input>) returns (r: Option<(seq<Entry>, nat)>)
    ensures r == CompileInputs(inputs, 0)
  {
    hide CompileInput;
    var entries: seq<Entry>, slots := [], 0;
    NothingBefore(inputs);
    for i := 0 to |inputs|
      invariant CompileInputs(inputs, 0) == After(entries, CompileInputs(inputs[i..], slots))
    {
      assert inputs[i..][1..] == inputs[i + 1..];
      var one := CompileInput(inputs[i], slots);
      if one.None? { return None; }
      assert CompileInputs(inputs[i..], slots) == After(one.value.0, CompileInputs(inputs[i + 1..], one.value.1));
      AfterAfter(entries, one.value.0, CompileInputs(inputs[i + 1..], one.value.1));
      entries, slots := entries + one.value.0, one.value.1;
    }
    assert inputs[|inputs|..] == [] && entries + [] == entries;
    return Some((entries, slots));
  }

  lemma NothingBefore(inputs: seq<Input>)
    ensures CompileInputs(inputs, 0) == After([], CompileInputs(inputs[0..], 0))
  {
    assert inputs[0..] == inputs;
    var r := CompileInputs(inputs, 0);
    if r.Some? { assert [] + r.value.0 == r.value.0; }
  }

  lemma AfterAfter(a: seq<Entry>, b: seq<Entry>, rest: Option<(seq<Entry>, nat)>)
    ensures After(a, After(b, rest)) == After(a + b, rest)
  {
    if rest.Some? { assert a + (b + rest.value.0) == (a + b) + rest.value.0; }
  }

  lemma SliceFurther(p: seq<byte>, k: nat, a: nat, b: nat)
    requires a <= b && k + b <= |p|
    ensures p[k..][a..b] == p[k + a..k + b]
  {
  }

  lemma {:induction false} InputAt(p: seq<byte>, n: nat, i: nat)
    requires |p| == INPUT_SIZE * n && i < n
    ensures ReadInputs(p, n)[i] == ReadInput(p[INPUT_SIZE * i..INPUT_SIZE * i + INPUT_SIZE])
    decreases n
  {
    hide ReadInput;
    if i > 0 {
      var q := p[INPUT_SIZE..];
      InputAt(q, n - 1, i - 1);
      SliceFurther(p, INPUT_SIZE, INPUT_SIZE * (i - 1), INPUT_SIZE * i);
    }
  }

  lemma {:induction false} OutputAt(p: seq<byte>, n: nat, i: nat)
    requires |p| == OUTPUT_SIZE * n && i < n
    ensures ReadOutputs(p, n)[i] == ReadOutput(p[OUTPUT_SIZE * i..OUTPUT_SIZE * i + OUTPUT_SIZE])
    decreases n
  {
    hide ReadOutput;
    if i > 0 {
      var q := p[OUTPUT_SIZE..];
      OutputAt(q, n - 1, i - 1);
      SliceFurther(p, OUTPUT_SIZE, OUTPUT_SIZE * (i - 1), OUTPUT_SIZE * i);
    }
  }

  /** The parser's loops: entry by entry, stopping at the first that is out of bounds. */
  method ReadInputTable(p: seq<byte>, n: nat, slots: nat) returns (ok: bool, es: seq<ParsedInput>)
    requires |p| == INPUT_SIZE * n
    ensures ok <==> AllInputsOk(ReadInputs(p, n), slots)
    ensures ok ==> es == ReadInputs(p, n)
  {
    hide ReadInput, ReadInputs, InputOk;
    es := [];
    for i := 0 to n
      invariant |es| == i && es == ReadInputs(p, n)[..i] && AllInputsOk(es, slots)
    {
      InputAt(p, n, i);
      var e := ReadInput(p[INPUT_SIZE * i..INPUT_SIZE * i + INPUT_SIZE]);
      if !InputOk(e, slots) { return false, es; }
      es := es + [e];
    }
    return true, es;
  }

  method ReadOutputTable(p: seq<byte>, n: nat) returns (ok: bool, os: seq<ParsedOutput>)
    requires |p| == OUTPUT_SIZE * n
    ensures ok <==> AllOutputsOk(ReadOutputs(p, n))
    ensures ok ==> os == ReadOutputs(p, n)
  {
    hide ReadOutput, ReadOutputs, OutputOk;
    os := [];
    for i := 0 to n
      invariant |os| == i && os == ReadOutputs(p, n)[..i] && AllOutputsOk(os)
    {
      OutputAt(p, n, i);
      var o := ReadOutput(p[OUTPUT_SIZE * i..OUTPUT_SIZE * i + OUTPUT_SIZE]);
      if !OutputOk(o) { return false, os; }
      os := os + [o];
    }
    return true, os;
  }

  method ParseProfile(data: seq<byte>) returns (r: ParseResult)
    ensures r == Parse(data)
  {
    hide Rd16, Rd32, ReadInputs, ReadOutputs, AllInputsOk, AllOutputsOk, Update32;
    if |data| < HEADER { return Err(BadSize); }
    if data[..4] != MAGIC { return Err(BadMagic); }
    if Rd16(data[4..6]) != VERSION || Rd16(data[6..8]) != HEADER { return Err(BadVersion); }
    if Rd32(data[8..12]) != |data| { return Err(BadSize); }
    var crc := Crc32Update(0xFFFF_FFFF, data[16..]);
    if Finish(crc) != Rd32(data[12..16]) { return Err(BadCrc); }
    var inputs, outputs, slots := Rd16(data[24..26]), Rd16(data[26..28]), data[28];
    if inputs > MAX_INPUTS || outputs > MAX_OUTPUTS || slots > MAX_SLOTS { return Err(BadBounds); }
    if HEADER + INPUT_SIZE * inputs + OUTPUT_SIZE * outputs != |data| { return Err(BadSize); }
    var split := HEADER + INPUT_SIZE * inputs;
    var inputsOk, es := ReadInputTable(data[HEADER..split], inputs, slots);
    if !inputsOk { return Err(BadBounds); }
    var outputsOk, os := ReadOutputTable(data[split..], outputs);
    if !outputsOk { return Err(BadBounds); }
    return Ok(ReadHeader(data, es, os));
  }
}
