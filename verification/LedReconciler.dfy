/** Desired controller LEDs of two decks, offered to the sender round robin until sent. */
module LedReconciler {
  import opened Wrappers
  import opened Words
  import opened RoundRobin

  const DECKS := 2
  const IDS := 69
  const COUNT := 138

  datatype Led = Led(state: byte, known: bool, dirty: bool)

  /** All LEDs, deck by deck, and where the next scan starts. */
  datatype Table = Table(leds: seq<Led>, cursor: nat)

  type Leds = t: Table | |t.leds| == COUNT && t.cursor < COUNT
    witness Table(seq(COUNT, _ => Led(0, false, false)), 0)

  datatype Desired = Desired(id: byte, deck: byte, state: byte)

  function Index(id: nat, deck: nat): nat { deck * IDS + id }

  predicate Addressed(id: nat, deck: nat) { id < IDS && deck < DECKS }

  function Observe(s: Leds, id: byte, deck: byte, state: byte): (r: Leds)
  {
    if Addressed(id, deck) then s.(leds := s.leds[Index(id, deck) := Led(state, true, true)]) else s
  }

  function Readiness(leds: seq<Led>): (r: seq<bool>)
    ensures |r| == |leds|
  {
    seq(|leds|, i requires 0 <= i < |leds| => leds[i].known && leds[i].dirty)
  }

  function Offer(s: Leds): (r: (Leds, Option<nat>))
    ensures (r.1.Some? ==> r.1.value < COUNT) && r.0.leds == s.leds
  {
    var at := NextReady(Readiness(s.leds), s.cursor, 0);
    if at.None? || at.value >= COUNT then (s, None) else (s.(cursor := Plus(at.value, 1, COUNT)), at)
  }

  /** The value is clean only if it is the one that was sent. */
  function Complete(s: Leds, at: nat, state: byte, sent: bool): (r: Leds)
  {
    if at < COUNT && sent && s.leds[at].known && s.leds[at].state == state
    then s.(leds := s.leds[at := s.leds[at].(dirty := false)]) else s
  }

  function MarkAll(s: Leds): (r: Leds)
  {
    s.(leds := seq(COUNT, i requires 0 <= i < COUNT => s.leds[i].(dirty := s.leds[i].dirty || s.leds[i].known)))
  }

  /** A report clears the LED exactly if it was sent and is still wanted so, and touches no other; a
      mark leaves every known LED dirty and no unknown one; neither changes what is wanted. */
  lemma DirtyExactly(s: Leds, at: nat, state: byte, sent: bool, i: nat)
    requires at < COUNT && i < COUNT
    ensures var led, led' := s.leds[i], Complete(s, at, state, sent).leds[i];
            && led'.state == led.state && led'.known == led.known
            && (led'.dirty <==> led.dirty && !(i == at && sent && led.known && led.state == state))
    ensures var led, led' := s.leds[i], MarkAll(s).leds[i];
            led'.state == led.state && led'.known == led.known && (led'.dirty <==> led.dirty || led.known)
  {
  }

  /** What is not clean is offered again: in every run an LED that was last sent another value than
      the one wanted, or none, is dirty or unknown. */
  lemma {:induction false} StaleIsDirty(s: State, ops: seq<Op>, i: nat)
    requires Converged(s) && i < COUNT
    ensures var t := Run(s, ops);
            t.leds.leds[i].known && t.shown[i] != Some(t.leds.leds[i].state) ==> t.leds.leds[i].dirty
  {
    CleanMeansShown(s, ops);
    hide Run;
  }

  // ------------------------------------------------------------------ runs of one sender

  /** The sender asks for an LED, sends it, and reports the outcome; `offered` is what it was given,
      by index and value. Observations and mark-all may come between. `shown` is what the
      controller was last sent for each LED. */
  datatype Exchange = Exchange(leds: Leds, offered: Option<(nat, byte)>, shown: seq<Option<byte>>)

  datatype Op = ObserveOp(id: byte, deck: byte, state: byte) | MarkAllOp | OfferOp | CompleteOp(sent: bool)

  type State = s: Exchange | |s.shown| == COUNT && (s.offered.Some? ==> s.offered.value.0 < COUNT)
    witness Exchange(Table(seq(COUNT, _ => Led(0, false, false)), 0), None, seq(COUNT, _ => None))

  function Step(s: State, op: Op): (r: State)
  {
    match op
    case ObserveOp(id, deck, state) => s.(leds := Observe(s.leds, id, deck, state))
    case MarkAllOp => s.(leds := MarkAll(s.leds))
    case OfferOp =>
      var (leds, at) := Offer(s.leds);
      Exchange(leds, if at.Some? then Some((at.value, leds.leds[at.value].state)) else None, s.shown)
    case CompleteOp(sent) =>
      if s.offered.None? then s
      else
        var (at, state) := s.offered.value;
        Exchange(Complete(s.leds, at, state, sent), None, if sent then s.shown[at := Some(state)] else s.shown)
  }

  function Run(s: State, ops: seq<Op>): (r: State)
    decreases ops
  {
    if ops == [] then s else Run(Step(s, ops[0]), ops[1..])
  }

  /** A known LED that is clean shows its desired value; the one on offer is dirty. */
  ghost predicate Converged(s: State)
  {
    && (s.offered.Some? ==> s.leds.leds[s.offered.value.0].known && s.leds.leds[s.offered.value.0].dirty)
    && forall i :: 0 <= i < COUNT && s.leds.leds[i].known && !s.leds.leds[i].dirty ==> s.shown[i] == Some(s.leds.leds[i].state)
  }

  lemma StepConverges(s: State, op: Op)
    requires Converged(s)
    ensures Converged(Step(s, op))
  {
    NextIsNearest(Readiness(s.leds.leds), s.leds.cursor, 0);
    hide NextReady;
  }

  /** In every run, a clean LED shows the value last wanted, whatever was wanted while it was sent. */
  lemma {:induction false} CleanMeansShown(s: State, ops: seq<Op>)
    requires Converged(s)
    ensures Converged(Run(s, ops))
    decreases ops
  {
    hide Converged, Step;
    if ops != [] {
      StepConverges(s, ops[0]);
      CleanMeansShown(Step(s, ops[0]), ops[1..]);
    }
  }

  /** The value last wanted of LED i over a run. */
  function LastWanted(w: Option<byte>, ops: seq<Op>, i: nat): Option<byte>
    decreases ops
  {
    if ops == [] then w
    else
      var op := ops[0];
      LastWanted(if op.ObserveOp? && Addressed(op.id, op.deck) && Index(op.id, op.deck) == i then Some(op.state) else w, ops[1..], i)
  }

  predicate Wants(led: Led, w: Option<byte>) { (led.known <==> w.Some?) && (w.Some? ==> led.state == w.value) }

  /** In every run the table holds the value last observed of every LED. */
  lemma {:induction false} WantedIsKept(s: State, w: Option<byte>, ops: seq<Op>, i: nat)
    requires i < COUNT && Wants(s.leds.leds[i], w)
    ensures Wants(Run(s, ops).leds.leds[i], LastWanted(w, ops, i))
    decreases ops
  {
    hide NextReady, Readiness;
    if ops != [] {
      var op := ops[0];
      var w' := if op.ObserveOp? && Addressed(op.id, op.deck) && Index(op.id, op.deck) == i then Some(op.state) else w;
      WantedIsKept(Step(s, op), w', ops[1..], i);
    }
  }

  function Offers(ops: seq<Op>): nat
    decreases ops
  {
    if ops == [] then 0 else (if ops[0].OfferOp? then 1 else 0) + Offers(ops[1..])
  }

  /** LED i is offered at some point of the run. */
  predicate Offered(s: State, ops: seq<Op>, i: nat)
    decreases ops
  {
    ops != [] && ((ops[0].OfferOp? && Offer(s.leds).1 == Some(i)) || Offered(Step(s, ops[0]), ops[1..], i))
  }

  ghost predicate Waits(s: State, i: nat)
  {
    i < COUNT && s.leds.leds[i].known && s.leds.leds[i].dirty && (s.offered.Some? ==> s.offered.value.0 != i)
  }

  lemma OtherStepsKeepWaiting(s: State, op: Op, i: nat)
    requires Waits(s, i) && !op.OfferOp?
    ensures Waits(Step(s, op), i) && Step(s, op).leds.cursor == s.leds.cursor
  {
  }

  lemma OfferComesNearer(s: State, i: nat)
    requires Waits(s, i)
    ensures var s' := Step(s, OfferOp);
            || Offer(s.leds).1 == Some(i)
            || (Waits(s', i) && Distance(s'.leds.cursor, i, COUNT) < Distance(s.leds.cursor, i, COUNT))
  {
    ServingBringsNearer(Readiness(s.leds.leds), s.leds.cursor, i);
    hide NextReady;
  }

  /** Even if every send fails, a dirty LED is offered after at most as many other offers as the
      cursor is away from it, so within decks x ids offers. */
  lemma {:induction false} DirtyLedIsOffered(s: State, ops: seq<Op>, i: nat)
    requires Waits(s, i)
    requires Offers(ops) > Distance(s.leds.cursor, i, COUNT)
    ensures Offered(s, ops, i)
    decreases ops
  {
    hide Step, Distance, Waits, Offer;
    if ops[0].OfferOp? {
      OfferComesNearer(s, i);
    } else {
      OtherStepsKeepWaiting(s, ops[0], i);
    }
    if !(ops[0].OfferOp? && Offer(s.leds).1 == Some(i)) {
      DirtyLedIsOffered(Step(s, ops[0]), ops[1..], i);
    }
  }

  // ------------------------------------------------------------------ the code that updates in place

  class Reconciler {
    const state: array<byte>
    const known: array<bool>
    const dirty: array<bool>
    var cursor: nat

    ghost predicate Valid()
      reads this
    {
      && state.Length == known.Length == dirty.Length == COUNT && cursor < COUNT
      && known != dirty
    }

    ghost function View(): (s: Leds)
      requires Valid()
      reads this, state, known, dirty
        {
      Table(LedsOf(state[..], known[..], dirty[..]), cursor)
    }

    constructor ()
      ensures Valid() && fresh(state) && fresh(known) && fresh(dirty)
      ensures View() == Table(seq(COUNT, _ => Led(0, false, false)), 0)
    {
      state := new byte[COUNT](_ => 0);
      known := new bool[COUNT](_ => false);
      dirty := new bool[COUNT](_ => false);
      cursor := 0;
    }

    method ObserveLed(id: byte, deck: byte, value: byte) returns (ok: bool)
      requires Valid()
      modifies state, known, dirty
      ensures Valid() && View() == Observe(old(View()), id, deck, value)
      ensures ok <==> Addressed(id, deck)
    {
      if id >= IDS || deck >= DECKS { return false; }
      var i := Index(id, deck);
      state[i] := value;
      known[i] := true;
      dirty[i] := true;
      assert View().leds == old(View()).leds[i := Led(value, true, true)];
      return true;
    }

    method NextLed() returns (item: Option<Desired>)
      requires Valid()
      modifies this
      ensures Valid() && View() == Offer(old(View())).0
      ensures var at := Offer(old(View())).1;
              && (item.Some? <==> at.Some?)
              && (item.Some? ==> Addressed(item.value.id, item.value.deck) && Index(item.value.id, item.value.deck) == at.value
                                 && item.value.state == state[at.value])
    {
      ghost var ready := Readiness(View().leds);
      var offset := 0;
      while offset < COUNT
        invariant offset <= COUNT && cursor == old(cursor)
        invariant NextReady(ready, cursor, 0) == NextReady(ready, cursor, offset)
      {
        PlusIsMod(cursor, offset, COUNT);
        var flat := (cursor + offset) % COUNT;
        if known[flat] && dirty[flat] {
          var deck, id := flat / IDS, flat % IDS;
          item := Some(Desired(id, deck, state[flat]));
          PlusIsMod(flat, 1, COUNT);
          cursor := (flat + 1) % COUNT;
          return;
        }
        offset := offset + 1;
      }
      return None;
    }

    method CompleteLed(item: Desired, sent: bool)
      requires Valid()
      modifies dirty
      ensures Valid()
      ensures View() == if Addressed(item.id, item.deck) then Complete(old(View()), Index(item.id, item.deck), item.state, sent)
                        else old(View())
    {
      if item.id >= IDS || item.deck >= DECKS || !sent { return; }
      var i := Index(item.id, item.deck);
      if known[i] && state[i] == item.state {
        dirty[i] := false;
        assert View().leds == old(View()).leds[i := old(View()).leds[i].(dirty := false)];
      }
    }

    method MarkAllDirty()
      requires Valid()
      modifies dirty
      ensures Valid() && View() == MarkAll(old(View()))
    {
      for i := 0 to COUNT
        invariant forall j :: 0 <= j < COUNT ==> dirty[j] == (old(dirty[j]) || (j < i && known[j]))
      {
        if known[i] { dirty[i] := true; }
      }
      assert View().leds == MarkAll(old(View())).leds;
    }
  }

  ghost function LedsOf(state: seq<byte>, known: seq<bool>, dirty: seq<bool>): (leds: seq<Led>)
    requires |state| == |known| == |dirty|
    ensures |leds| == |state|
  {
    seq(|state|, i requires 0 <= i < |state| => Led(state[i], known[i], dirty[i]))
  }
}
