/** The recorder's block ring, updated in place. */
module RecorderRing {
  import opened Wrappers
  import opened Words
  import opened Recorder

  /** The blocks of the session in order, the first `read` of them consumed. */
  ghost predicate Stored(slots: seq<Block>, log: seq<Block>, read: nat) {
    && 0 < |slots| && read <= |log| <= read + |slots|
    && forall k :: read <= k < |log| ==> slots[Wrap(k, |slots|)] == log[k]
  }

  lemma PushStores(slots: seq<Block>, log: seq<Block>, read: nat, b: Block)
    requires Stored(slots, log, read) && |log| < read + |slots|
    ensures Stored(slots[Wrap(|log|, |slots|) := b], log + [b], read)
  {
    var slots' := slots[Wrap(|log|, |slots|) := b];
    var log' := log + [b];
    forall k | read <= k < |log'| ensures slots'[Wrap(k, |slots|)] == log'[k] {
      if k < |log| && Wrap(k, |slots|) == Wrap(|log|, |slots|) {
        WrapInjective(k, |log|, |slots|);
      }
    }
  }

  class Ring {
    const slots: array<Block>
    var writeSeq: u32
    var readSeq: u32
    var dropped: nat
    ghost var log: seq<Block>
    ghost var read: nat

    /** The ring index of `count` blocks is continuous: no wrap yet, or one the capacity divides. */
    ghost predicate Continuous(count: nat) {
      count < TWO32 || (slots.Length > 0 && TWO32 % slots.Length == 0)
    }

    ghost predicate Valid()
      reads this, slots
    {
      && 0 < slots.Length < TWO32 && Continuous(|log|)
      && writeSeq == Wrap(|log|, TWO32) && readSeq == Wrap(read, TWO32)
      && Stored(slots[..], log, read)
    }

    constructor (slots: array<Block>)
      requires 0 < slots.Length < TWO32
      ensures Valid() && this.slots == slots && log == [] && read == 0 && dropped == 0
    {
      this.slots := slots;
      writeSeq, readSeq, dropped, log, read := 0, 0, 0, [], 0;
    }

    /** Refuses exactly when the ring is full; a block longer than a slot is cut to it. The first
        block whose index is not continuous overwrites whatever its slot holds; up to there, and for
        ever if the capacity divides 2^32, the ring stays a queue. */
    method Push(b: Block) returns (ok: bool)
      requires Valid()
      modifies this, slots
      ensures read == old(read)
      ensures ok <==> |old(log)| - read < slots.Length
      ensures log == if ok then old(log) + [Clamp(b)] else old(log)
      ensures dropped == old(dropped) + if ok then 0 else 1
      ensures !ok || Continuous(|log|) ==> Valid()
    {
      hide Stored;
      StoredBounds(slots[..], log, read);
      Distance32(|log|, read);
      if Sub32(writeSeq, readSeq) >= slots.Length {
        dropped := dropped + 1;
        return false;
      }
      SlotIsContinuous(|log|, slots.Length);
      PushStores(slots[..], log, read, Clamp(b));
      WrapMove(|log|, 1, TWO32);
      slots[writeSeq % slots.Length] := Clamp(b);
      assert slots[..] == old(slots[..])[Slot(|log|, slots.Length) := Clamp(b)];
      log := log + [Clamp(b)];
      writeSeq := Add32(writeSeq, 1);
      return true;
    }

    method Peek() returns (b: Option<Block>)
      requires Valid()
      ensures b == if read < |log| then Some(log[read]) else None
    {
      if read < |log| { NotCaughtUp(|log|, read); }
      if readSeq == writeSeq { return None; }
      SlotIsContinuous(read, slots.Length);
      return Some(slots[readSeq % slots.Length]);
    }

    method Consume()
      requires Valid()
      modifies this
      ensures Valid() && log == old(log) && read == if old(read) < |log| then old(read) + 1 else old(read)
    {
      if read < |log| { NotCaughtUp(|log|, read); }
      if readSeq == writeSeq { return; }
      WrapMove(read, 1, TWO32);
      read := read + 1;
      readSeq := Add32(readSeq, 1);
    }

    method Used() returns (n: u32)
      requires Valid()
      ensures n == |log| - read
    {
      Distance32(|log|, read);
      n := Sub32(writeSeq, readSeq);
    }
  }

  lemma NotCaughtUp(write: nat, read: nat)
    requires read < write < read + TWO32
    ensures Wrap(write, TWO32) != Wrap(read, TWO32)
  {
    if Wrap(write, TWO32) == Wrap(read, TWO32) { WrapInjective(read, write, TWO32); }
  }

  lemma SlotIsContinuous(count: nat, capacity: nat)
    requires 0 < capacity < TWO32 && (count < TWO32 || TWO32 % capacity == 0)
    ensures Slot(count, capacity) == Wrap(count, capacity)
  {
    if count < TWO32 { SlotBelowWrap(count, capacity); } else { SlotDivides(count, capacity); }
  }

  lemma StoredBounds(slots: seq<Block>, log: seq<Block>, read: nat)
    requires Stored(slots, log, read)
    ensures read <= |log| <= read + |slots|
  {
  }
}
