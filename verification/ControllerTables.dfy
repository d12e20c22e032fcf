/** What the tables the profile compiler emits say about the controls the profile declares. */
module ControllerTables {
  import opened Wrappers
  import opened Words
  import opened ControllerProfile

  // ------------------------------------------------------------------ inputs

  /** Two messages of the controller make one value. */
  predicate IsPair(i: Input) { i.Cc14? || i.StatePair? }

  /** Every name in the input is known, and a state pair has its four values and two members. */
  predicate Known(i: Input) {
    && !i.UnknownInput? && i.event.Some?
    && (i.ExtAction? ==> i.action.Some?) && (i.PadBank? ==> i.mode.Some?)
    && (i.StatePair? ==> |i.values| == 4 && |i.members| == 2)
  }

  predicate AllKnown(inputs: seq<Input>) { forall k :: 0 <= k < |inputs| ==> Known(inputs[k]) }

  function Pairs(inputs: seq<Input>): nat {
    if inputs == [] then 0 else (if IsPair(inputs[0]) then 1 else 0) + Pairs(inputs[1..])
  }

  /** How many messages the input declares. */
  function Width(i: Input): nat { if IsPair(i) then 2 else if !i.PadBank? then 1 else if i.count < 0 then 0 else i.count }

  /** Entry `e` stands for message `k` of the input: its address, how its value is read, and what
      it means. */
  predicate Binds(e: Entry, i: Input, k: nat, slot: nat)
    requires Known(i) && k < Width(i)
  {
    && e.semType == i.event.value.semType && e.semId == i.event.value.semId
    && e.slot == (if IsPair(i) then slot else NO_SLOT)
    && match i
       case Button(status, data1, _) => Reads(e, status, data1, NOTE_BUTTON, 0) && IsPlain(e)
       case ExtAction(status, data1, _, action) =>
         Reads(e, status, data1, NOTE_VALUE, 0) && IsValue(e) && e.base == action.value % 128
       case PadBank(status, first, _, _, mode, shifted) =>
         // Pad, mode and shift share one number.
         Reads(e, status, first + k, NOTE_VALUE, 0) && IsValue(e)
         && e.base % 8 == k % 8 && e.base / 8 % 8 == mode.value % 8 && e.base / 64 == (if shifted then 1 else 0)
       case Encoder(status, data1, _, rel64) =>
         Reads(e, status, data1, if rel64 then CC_REL64 else CC_REL_2C, 0) && IsPlain(e)
       case Cc14(status, msb, lsb, _, replay) =>
         Reads(e, status, if k == 0 then msb else lsb, if k == 0 then CC14_MSB else CC14_LSB, if replay then FLAG_REPLAY else 0)
         && IsPlain(e)
       case Cc7(status, data1, _, replay) => Reads(e, status, data1, CC7_ABS, if replay then FLAG_REPLAY else 0) && IsPlain(e)
       case StatePair(_, values, members) =>
         Reads(e, members[k].status, members[k].data1, STATE_PAIR, if k == 0 then 0 else FLAG_MEMBER_B)
         && e.base == e.mask == 0 && |e.lut| == 4
         && forall j :: 0 <= j < 4 ==> e.lut[j] == (match values[j] case None => -1 case Some(v) => v)
  }

  predicate Reads(e: Entry, status: int, data1: int, raw: int, flags: int) {
    e.status == status && e.data1 == data1 && e.raw == raw && e.flags == flags
  }

  predicate IsPlain(e: Entry) { e.base == e.mask == 0 && e.lut == [-1, -1, -1, -1] }
  predicate IsValue(e: Entry) { e.mask == 0x80 && e.lut == [-1, -1, -1, -1] }

  /** The entries of one input: one for each message it declares, in order. */
  predicate Bound(es: seq<Entry>, i: Input, slot: nat)
    requires Known(i)
  {
    |es| == Width(i) && forall k :: 0 <= k < |es| ==> Binds(es[k], i, k, slot)
  }

  lemma PadBaseParts(mode: int, pad: nat, shifted: bool)
    ensures var b := PadBase(mode, pad, shifted);
            b % 8 == pad % 8 && b / 8 % 8 == mode % 8 && b / 64 == if shifted then 1 else 0
  {
    var p, m := pad % 8, mode % 8;
    assert PadBase(mode, pad, shifted) == p + m * 8 + if shifted then 64 else 0;
  }

  lemma {:induction false} PadsAreBound(i: Input, pad: nat, slot: nat)
    requires i.PadBank? && Known(i) && pad <= Width(i)
    ensures |Pads(i, pad)| == Width(i) - pad
    ensures forall k :: 0 <= k < |Pads(i, pad)| ==> Binds(Pads(i, pad)[k], i, pad + k, slot)
    decreases Width(i) - pad
  {
    if pad < Width(i) {
      PadsAreBound(i, pad + 1, slot);
      PadBaseParts(i.mode.value, pad, i.shifted);
      hide PadBase;
      var es := Pads(i, pad);
      forall k | 0 <= k < |es| ensures Binds(es[k], i, pad + k, slot) {
        if k > 0 { assert es[k] == Pads(i, pad + 1)[k - 1] && Binds(es[k], i, pad + 1 + (k - 1), slot); }
      }
    }
  }

  /** One input raises exactly if a name in it is not known or it is a pair and no slot is left; else
      each of its messages gets its entry, and a pair takes the next slot. */
  lemma InputIsBound(i: Input, slots: nat)
    requires slots <= MAX_SLOTS
    ensures CompileInput(i, slots).Some? <==> Known(i) && (IsPair(i) ==> slots < MAX_SLOTS)
    ensures CompileInput(i, slots).Some? ==>
              var (es, slots') := CompileInput(i, slots).value;
              Bound(es, i, slots) && slots' == slots + if IsPair(i) then 1 else 0
  {
    if Known(i) && i.PadBank? { PadsAreBound(i, 0, slots); }
    hide Pads;
  }

  /** The whole table: the entries of the first input, then those of the others. */
  ghost predicate AllBound(es: seq<Entry>, inputs: seq<Input>, slots: nat)
    requires AllKnown(inputs)
    decreases inputs
  {
    if inputs == [] then es == []
    else
      assert Known(inputs[0]);
      var n := Width(inputs[0]);
      n <= |es| && Bound(es[..n], inputs[0], slots)
      && AllBound(es[n..], inputs[1..], slots + if IsPair(inputs[0]) then 1 else 0)
  }

  /** The table compilation raises exactly if some name is not known or the pairs outnumber the slots;
      else every message of every input has its entry, in the order of the profile. */
  lemma {:induction false} InputsAreBound(inputs: seq<Input>, slots: nat)
    requires slots <= MAX_SLOTS
    ensures CompileInputs(inputs, slots).Some? <==> AllKnown(inputs) && slots + Pairs(inputs) <= MAX_SLOTS
    ensures CompileInputs(inputs, slots).Some? ==>
              var (es, last) := CompileInputs(inputs, slots).value;
              AllBound(es, inputs, slots) && last == slots + Pairs(inputs)
    decreases inputs
  {
    if inputs == [] {
      hide CompileInput, Bound, Known;
    } else {
      hide CompileInput, Bound, Known, AllKnown, IsPair, Width;
      InputIsBound(inputs[0], slots);
      FirstKnown(inputs);
      if CompileInput(inputs[0], slots).Some? {
        var (first, slots1) := CompileInput(inputs[0], slots).value;
        InputsAreBound(inputs[1..], slots1);
        if CompileInputs(inputs[1..], slots1).Some? {
          var rest := CompileInputs(inputs[1..], slots1).value.0;
          BoundWidth(first, inputs[0], slots);
          assert (first + rest)[..|first|] == first && (first + rest)[|first|..] == rest;
        }
      }
    }
  }

  lemma FirstKnown(inputs: seq<Input>)
    requires inputs != []
    ensures AllKnown(inputs) <==> Known(inputs[0]) && AllKnown(inputs[1..])
  {
    hide Known;
    assert forall k :: 0 <= k < |inputs| - 1 ==> inputs[1..][k] == inputs[k + 1];
    assert forall k :: 0 < k < |inputs| ==> inputs[k] == inputs[1..][k - 1];
  }

  lemma BoundWidth(es: seq<Entry>, i: Input, slot: nat)
    requires Known(i) && Bound(es, i, slot)
    ensures |es| == Width(i)
  {
  }

  // ------------------------------------------------------------------ pairs

  /** The two entries of one pair, in their order. */
  predicate Partners(a: Entry, b: Entry) {
    && a.slot == b.slot && a.semType == b.semType && a.semId == b.semId
    && ((a.raw == CC14_MSB && b.raw == CC14_LSB && a.flags == b.flags)
        || (a.raw == b.raw == STATE_PAIR && a.flags == 0 && b.flags == FLAG_MEMBER_B && a.lut == b.lut))
  }

  predicate Partnered(es: seq<Entry>, p: nat)
    requires p < |es|
  {
    (p + 1 < |es| && Partners(es[p], es[p + 1])) || (p > 0 && Partners(es[p - 1], es[p]))
  }

  ghost predicate PairsApart(es: seq<Entry>, slots: nat) {
    && (forall p :: 0 <= p < |es| && NeedsSlot(es[p].raw) ==> es[p].slot >= slots && Partnered(es, p))
    && (forall p, q :: 0 <= p < q < |es| && NeedsSlot(es[p].raw) && NeedsSlot(es[q].raw) && es[p].slot == es[q].slot ==>
          q == p + 1 && Partners(es[p], es[q]))
  }

  lemma InputPairs(es: seq<Entry>, i: Input, slots: nat)
    requires Known(i) && Bound(es, i, slots)
    ensures IsPair(i) ==> |es| == 2 && es[0].slot == es[1].slot == slots && Partners(es[0], es[1])
    ensures !IsPair(i) ==> forall p :: 0 <= p < |es| ==> !NeedsSlot(es[p].raw)
  {
    if IsPair(i) {
      assert Binds(es[0], i, 0, slots) && Binds(es[1], i, 1, slots);
    } else {
      forall p | 0 <= p < |es| ensures !NeedsSlot(es[p].raw) { assert Binds(es[p], i, p, slots); }
    }
  }

  lemma PairsJoin(first: seq<Entry>, rest: seq<Entry>, slots: nat, pair: bool)
    requires if pair then |first| == 2 && first[0].slot == first[1].slot == slots && Partners(first[0], first[1])
             else forall p :: 0 <= p < |first| ==> !NeedsSlot(first[p].raw)
    requires PairsApart(rest, slots + if pair then 1 else 0)
    ensures PairsApart(first + rest, slots)
  {
    var es, n := first + rest, |first|;
    forall p | 0 <= p < |es| && NeedsSlot(es[p].raw) ensures es[p].slot >= slots && Partnered(es, p) {
      if p < n {
        assert es[0] == first[0] && es[1] == first[1];
      } else {
        assert es[p] == rest[p - n] && Partnered(rest, p - n);
      }
    }
    assert forall q :: n <= q < |es| ==> es[q] == rest[q - n];
    forall p, q | 0 <= p < q < |es| && NeedsSlot(es[p].raw) && NeedsSlot(es[q].raw) && es[p].slot == es[q].slot
      ensures q == p + 1 && Partners(es[p], es[q])
    {
      if p >= n {
        assert es[p] == rest[p - n] && es[q] == rest[q - n];
      }
    }
  }

  lemma {:induction false} BoundPairs(es: seq<Entry>, inputs: seq<Input>, slots: nat)
    requires AllKnown(inputs) && AllBound(es, inputs, slots)
    ensures PairsApart(es, slots)
    decreases inputs
  {
    if inputs != [] {
      hide Known, Bound, Partners, AllKnown, IsPair, Width, NeedsSlot, PairsApart;
      FirstKnown(inputs);
      var n := Width(inputs[0]);
      InputPairs(es[..n], inputs[0], slots);
      BoundPairs(es[n..], inputs[1..], slots + if IsPair(inputs[0]) then 1 else 0);
      PairsJoin(es[..n], es[n..], slots, IsPair(inputs[0]));
      assert es == es[..n] + es[n..];
    }
  }

  /** Whatever profile compiles: an entry that belongs to a pair has its partner beside it, and no
      two pairs share a slot, so that the board never joins halves of different controls. */
  lemma {:induction false} PairsNeverMix(inputs: seq<Input>)
    requires CompileInputs(inputs, 0).Some?
    ensures PairsApart(CompileInputs(inputs, 0).value.0, 0)
  {
    InputsAreBound(inputs, 0);
    BoundPairs(CompileInputs(inputs, 0).value.0, inputs, 0);
  }

  // ------------------------------------------------------------------ outputs

  predicate OutputKnown(o: OutItem) {
    match o
    case NoteBank(bank, count, _, _, _, _, _) => bank.Some? && count == bank.value.1
    case PerDeck(led, _, _, _, _, _, _) => led.Some?
    case OneDeck(led, _, deck, _, _, _, _, _) => led.Some? && deck.Some?
  }

  lemma OneMore(k: int, n: int)
    ensures k * n == n + (k - 1) * n
  {
  }

  /** Row `at` of a bank from its i-th LED on, when that is deck d of LED i + k. */
  lemma {:induction false} BankRowAt(o: OutItem, led: int, count: nat, i: nat, k: nat, d: nat, at: int, size: int)
    requires o.NoteBank? && i + k < count && d < |o.statuses|
    requires at == k * |o.statuses| + d && size == (count - i) * |o.statuses|
    ensures |BankRows(o, led, count, i)| == size && 0 <= at < size
    ensures BankRows(o, led, count, i)[at] == Output(led + i + k, d, 0, o.statuses[d], o.first + i + k, o.off, o.on, o.blink)
    decreases count - i
  {
    var n := |o.statuses|;
    OneMore(count - i, n);
    OneMore(k, n);
    if k > 0 {
      BankRowAt(o, led, count, i + 1, k - 1, d, at - n, size - n);
    } else {
      BankSize(o, led, count, i + 1, size - n);
    }
  }

  lemma {:induction false} BankSize(o: OutItem, led: int, count: nat, i: nat, size: int)
    requires o.NoteBank? && i <= count && size == (count - i) * |o.statuses|
    ensures |BankRows(o, led, count, i)| == size
    decreases count - i
  {
    if i < count {
      OneMore(count - i, |o.statuses|);
      BankSize(o, led, count, i + 1, size - |o.statuses|);
    }
  }

  /** An output raises exactly if a name is not known or a bank has the wrong size. A bank lights its
      r-th LED on deck d by the r-th note at that deck's status; any other output has one row per deck
      it names. */
  lemma OutputIsBound(o: OutItem, r: nat, d: nat)
    ensures CompileOutput(o).Some? <==> OutputKnown(o)
    ensures OutputKnown(o) && o.NoteBank? && r < o.bank.value.1 && d < |o.statuses| ==>
              var rows := CompileOutput(o).value;
              var at := r * |o.statuses| + d;
              && |rows| == o.bank.value.1 * |o.statuses| && at < |rows|
              && rows[at] == Output(o.bank.value.0 + r, d, 0, o.statuses[d], o.first + r, o.off, o.on, o.blink)
    ensures OutputKnown(o) && o.PerDeck? && d < |o.statuses| ==>
              var rows := CompileOutput(o).value;
              && |rows| == |o.statuses|
              && rows[d] == Output(o.led.value, d, if o.cc then 1 else 0, o.statuses[d], o.data1, o.off, o.on, o.blink)
  {
    if OutputKnown(o) && o.NoteBank? && r < o.bank.value.1 && d < |o.statuses| {
      BankRowAt(o, o.bank.value.0, o.bank.value.1, 0, r, d, r * |o.statuses| + d, o.bank.value.1 * |o.statuses|);
    }
    hide BankRows;
  }
}
