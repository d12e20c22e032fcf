/** Admission of deck loads: one admission lock, one lock per deck, the flag that keeps loads out
    while all decks are stopped, and the session generations that stops carry. Any number of
    threads run the operations; a step is one lock, unlock or update under a lock. */
module DeckAdmission {
  import opened Wrappers
  import opened Words

  type Deck = d: nat | d < 2

  /** A generation as a caller got it, and how many calls had been made on the deck then. */
  datatype Token = Token(generation: u32, calls: nat)

  /** A call into the engine that changes what the deck plays, and the thread that made it. */
  datatype Event = Loaded(thread: nat) | Halted(thread: nat)

  /** What a thread does next. `keep` tells a suspension from a plain stop of all decks. */
  datatype Pc =
    | Idle
    | LoadAdm(d: Deck) | LoadCheck(d: Deck) | LoadRefuse | LoadDeck(d: Deck) | LoadAdmit(d: Deck)
    | LoadStart(d: Deck) | Loading(d: Deck) | LoadDone(d: Deck)
    | StopDeck(d: Deck, expected: Option<Token>) | Stopping(d: Deck, expected: Option<Token>)
    | Halting(d: Deck, expected: Option<Token>) | StopDone(d: Deck, expected: Option<Token>, acted: bool)
    | ReadDeck(d: Deck) | Reading(d: Deck)
    | AllAdm(keep: bool) | AllCheck(keep: bool) | AllRefuse | AllOpen(keep: bool) | AllDeck(keep: bool, k: nat)
    | AllStop(keep: bool, ok: bool, d: Deck) | AllHalt(keep: bool, ok: bool, d: Deck) | AllUnlock(keep: bool, ok: bool, k: nat)
    | ResumeAdm | ResumeClear | ResumeRelease

  datatype Locks = Locks(adm: Option<nat>, deck0: Option<nat>, deck1: Option<nat>)

  /** `owner` is the thread that shut admission, `drained` the number of decks it has locked since,
      `suspended` that its suspension returned success. */
  datatype Flags = Flags(blocked: bool, owner: Option<nat>, drained: nat, suspended: bool)

  /** A deck's generation, the engine calls made on it, and the generations handed out to callers. */
  datatype Session = Session(generation: u32, calls: seq<Event>, issued: set<Token>)

  datatype Shared = Shared(locks: Locks, flags: Flags, deck0: Session, deck1: Session)

  datatype State = State(pcs: seq<Pc>, shared: Shared)

  datatype Op = Load(d: Deck) | Stop(d: Deck) | StopSession(d: Deck, token: Token) | ReadGeneration(d: Deck) | Suspend | StopAll | Resume

  datatype Action = Call(t: nat, op: Op) | Step(t: nat, ok: bool)

  // ------------------------------------------------------------------ generations

  function NextGeneration(g: u32): u32 { if Add32(g, 1) == 0 then 1 else Add32(g, 1) }

  /** The generation after n advances: it cycles through 1 .. 2^32 - 1. */
  function GenerationAfter(n: nat): (g: u32)
    ensures n > 0 ==> g != 0
  {
    if n == 0 then 0 else (n - 1) % 0xFFFF_FFFF + 1
  }

  lemma AdvanceCycles(n: nat)
    ensures NextGeneration(GenerationAfter(n)) == GenerationAfter(n + 1)
  {
    if n > 0 {
      var q, r := Decompose(n - 1, 0xFFFF_FFFF);
      if r == 0xFFFF_FFFE { ModIs(n, q + 1, 0, 0xFFFF_FFFF); } else { ModIs(n, q, r + 1, 0xFFFF_FFFF); }
    }
  }

  /** A whole number of cycles lies between the two. */
  predicate SameCycle(m: nat, n: nat) { (n - m) % 0xFFFF_FFFF == 0 }

  /** A generation reached after m advances is the current one after n advances exactly when a whole
      number of cycles lies between them. */
  lemma {:induction false} GenerationMatches(m: nat, n: nat)
    requires 1 <= m <= n
    ensures GenerationAfter(m) == GenerationAfter(n) <==> SameCycle(m, n)
  {
    var qm, rm := Decompose(m - 1, 0xFFFF_FFFF);
    var qn, rn := Decompose(n - 1, 0xFFFF_FFFF);
    if rm == rn {
      ModIs(n - m, qn - qm, 0, 0xFFFF_FFFF);
    } else if rn > rm {
      ModIs(n - m, qn - qm, rn - rm, 0xFFFF_FFFF);
    } else {
      ModIs(n - m, qn - qm - 1, rn - rm + 0xFFFF_FFFF, 0xFFFF_FFFF);
    }
  }

  lemma ShortOfACycle(m: nat, n: nat)
    requires m <= n < m + 0xFFFF_FFFF
    ensures SameCycle(m, n) <==> m == n
  {
  }

  // ------------------------------------------------------------------ steps

  /** One thread's place together with what all threads share. */
  datatype Local = Local(pc: Pc, shared: Shared)

  function SessionOf(m: Shared, d: Deck): Session { if d == 0 then m.deck0 else m.deck1 }

  function Holder(k: Locks, d: Deck): Option<nat> { if d == 0 then k.deck0 else k.deck1 }

  function SetHolder(m: Shared, d: Deck, h: Option<nat>): Shared {
    if d == 0 then m.(locks := m.locks.(deck0 := h)) else m.(locks := m.locks.(deck1 := h))
  }

  function SetSession(m: Shared, d: Deck, session: Session): Shared {
    if d == 0 then m.(deck0 := session) else m.(deck1 := session)
  }

  function Advance(m: Shared, d: Deck): Shared {
    var session := SessionOf(m, d);
    SetSession(m, d, session.(generation := NextGeneration(session.generation)))
  }

  function Engine(m: Shared, d: Deck, e: Event): Shared {
    var session := SessionOf(m, d);
    SetSession(m, d, session.(calls := session.calls + [e]))
  }

  /** A caller gets the deck's generation. */
  function Issue(m: Shared, d: Deck): Shared {
    var session := SessionOf(m, d);
    SetSession(m, d, session.(issued := session.issued + {Token(session.generation, |session.calls|)}))
  }

  function Lock(l: Local, t: nat, d: Deck, pc: Pc): Local {
    if Holder(l.shared.locks, d).Some? then l else Local(pc, SetHolder(l.shared, d, Some(t)))
  }

  function Unlock(l: Local, d: Deck, pc: Pc): Local { Local(pc, SetHolder(l.shared, d, None)) }

  function Enter(l: Local, t: nat, pc: Pc): Local {
    if l.shared.locks.adm.Some? then l else Local(pc, l.shared.(locks := l.shared.locks.(adm := Some(t))))
  }

  function Exit(l: Local, pc: Pc): Local { Local(pc, l.shared.(locks := l.shared.locks.(adm := None))) }

  /** A call begins. A stop may carry any generation its deck has ever handed out; zero, which no
      session has, is refused. Only the owner of a suspension resumes. */
  function Begin(l: Local, t: nat, op: Op): Local {
    if l.pc != Idle then l
    else
      match op
      case Load(d) => l.(pc := LoadAdm(d))
      case Stop(d) => l.(pc := StopDeck(d, None))
      case StopSession(d, token) =>
        if token.generation != 0 && token in SessionOf(l.shared, d).issued then l.(pc := StopDeck(d, Some(token))) else l
      case ReadGeneration(d) => l.(pc := ReadDeck(d))
      case Suspend => l.(pc := AllAdm(true))
      case StopAll => l.(pc := AllAdm(false))
      case Resume => if l.shared.flags.owner == Some(t) && l.shared.flags.suspended then l.(pc := ResumeAdm) else l
  }

  function LoadStep(l: Local, t: nat): Local {
    match l.pc
    case LoadAdm(d) => Enter(l, t, LoadCheck(d))
    case LoadCheck(d) => l.(pc := if l.shared.flags.blocked then LoadRefuse else LoadDeck(d))
    case LoadRefuse => Exit(l, Idle)
    case LoadDeck(d) => Lock(l, t, d, LoadAdmit(d))
    case LoadAdmit(d) => Exit(l, LoadStart(d))
    case LoadStart(d) => Local(Loading(d), Advance(l.shared, d))
    case Loading(d) => Local(LoadDone(d), Engine(l.shared, d, Loaded(t)))
    case LoadDone(d) => Unlock(l.(shared := Issue(l.shared, d)), d, Idle)
    case _ => l
  }

  /** A stop that carries a token acts only if the deck's generation is the token's. */
  predicate Acts(expected: Option<Token>, session: Session) {
    expected.None? || session.generation == expected.value.generation
  }

  function StopStep(l: Local, t: nat): Local {
    match l.pc
    case StopDeck(d, expected) => Lock(l, t, d, Stopping(d, expected))
    case Stopping(d, expected) =>
      if Acts(expected, SessionOf(l.shared, d)) then Local(Halting(d, expected), Advance(l.shared, d))
      else l.(pc := StopDone(d, expected, false))
    case Halting(d, expected) => Local(StopDone(d, expected, true), Engine(l.shared, d, Halted(t)))
    case StopDone(d, _, _) => Unlock(l, d, Idle)
    case ReadDeck(d) => Lock(l, t, d, Reading(d))
    case Reading(d) => Unlock(l.(shared := Issue(l.shared, d)), d, Idle)
    case _ => l
  }

  function AllStep(l: Local, t: nat, ok: bool): Local {
    var m := l.shared;
    match l.pc
    case AllAdm(keep) => Enter(l, t, AllCheck(keep))
    case AllCheck(keep) =>
      if m.flags.blocked then l.(pc := AllRefuse)
      else Local(AllOpen(keep), m.(flags := m.flags.(blocked := true, owner := Some(t))))
    case AllRefuse => Exit(l, Idle)
    case AllOpen(keep) => Exit(l, AllDeck(keep, 0))
    case AllDeck(keep, k) =>
      if k >= 2 || Holder(m.locks, k).Some? then l
      else
        var m' := SetHolder(m, k, Some(t));
        Local(if k == 0 then AllDeck(keep, 1) else AllStop(keep, true, 0), m'.(flags := m'.flags.(drained := k + 1)))
    case AllStop(keep, fine, d) => Local(AllHalt(keep, fine, d), Advance(m, d))
    case AllHalt(keep, fine, d) =>
      Local(if d == 0 then AllStop(keep, ok, 1) else AllUnlock(keep, fine && ok, 2), Engine(m, d, Halted(t)))
    case AllUnlock(keep, fine, k) =>
      if k == 2 then Unlock(l, 1, AllUnlock(keep, fine, 1))
      else if keep && fine then
        var m' := SetHolder(m, 0, None);
        Local(Idle, m'.(flags := m'.flags.(suspended := true)))
      else Unlock(l, 0, ResumeAdm)
    case ResumeAdm => Enter(l, t, ResumeClear)
    case ResumeClear => Local(ResumeRelease, m.(flags := Flags(false, None, 0, false)))
    case ResumeRelease => Exit(l, Idle)
    case _ => l
  }

  function Move(l: Local, a: Action): Local {
    if a.Call? then Begin(l, a.t, a.op)
    else if IsLoad(l.pc) then LoadStep(l, a.t)
    else if IsStop(l.pc) then StopStep(l, a.t)
    else AllStep(l, a.t, a.ok)
  }

  function Next(s: State, a: Action): State {
    if a.t >= |s.pcs| then s
    else
      var l := Move(Local(s.pcs[a.t], s.shared), a);
      State(s.pcs[a.t := l.pc], l.shared)
  }

  predicate IsLoad(pc: Pc) {
    pc.LoadAdm? || pc.LoadCheck? || pc.LoadRefuse? || pc.LoadDeck? || pc.LoadAdmit? || pc.LoadStart? || pc.Loading? || pc.LoadDone?
  }

  predicate IsStop(pc: Pc) { pc.StopDeck? || pc.Stopping? || pc.Halting? || pc.StopDone? || pc.ReadDeck? || pc.Reading? }

  // ------------------------------------------------------------------ the invariant

  predicate HoldsAdm(pc: Pc) {
    || pc.LoadCheck? || pc.LoadRefuse? || pc.LoadDeck? || pc.LoadAdmit?
    || pc.AllCheck? || pc.AllRefuse? || pc.AllOpen? || pc.ResumeClear? || pc.ResumeRelease?
  }

  predicate HoldsDeck(pc: Pc, d: nat) {
    || ((pc.LoadAdmit? || pc.LoadStart? || pc.Loading? || pc.LoadDone? || pc.Stopping? || pc.Halting? || pc.StopDone? || pc.Reading?)
        && pc.d == d)
    || (pc.AllDeck? && d < pc.k) || pc.AllStop? || pc.AllHalt? || (pc.AllUnlock? && d < pc.k)
  }

  /** The load has passed the admission check. */
  predicate InProgress(pc: Pc) { pc.LoadDeck? || pc.LoadAdmit? || pc.LoadStart? || pc.Loading? || pc.LoadDone? }

  /** The thread has shut admission and not yet reopened it. */
  predicate Owns(pc: Pc) {
    pc.AllOpen? || pc.AllDeck? || pc.AllStop? || pc.AllHalt? || pc.AllUnlock? || pc.ResumeAdm? || pc.ResumeClear?
  }

  ghost predicate AdmOk(pcs: seq<Pc>, adm: Option<nat>) {
    && (forall t :: 0 <= t < |pcs| ==> (HoldsAdm(pcs[t]) <==> adm == Some(t)))
    && (adm.Some? ==> adm.value < |pcs|)
  }

  ghost predicate DeckOk(pcs: seq<Pc>, d: nat, holder: Option<nat>) {
    && (forall t :: 0 <= t < |pcs| ==> (HoldsDeck(pcs[t], d) <==> holder == Some(t)))
    && (holder.Some? ==> holder.value < |pcs|)
  }

  /** Where the owner of a suspension can be, by how far it got. */
  predicate OwnerPc(pc: Pc, drained: nat, suspended: bool) {
    && (pc.AllOpen? ==> drained == 0)
    && (pc.AllDeck? ==> pc.k == drained < 2)
    && (pc.AllStop? || pc.AllHalt? ==> drained == 2)
    && (pc.AllUnlock? ==> 1 <= pc.k <= 2 && drained == 2)
    && (suspended && Owns(pc) ==> pc.ResumeAdm? || pc.ResumeClear?)
  }

  predicate FlagsOk(f: Flags) {
    && (f.blocked <==> f.owner.Some?)
    && (f.suspended ==> f.blocked && f.drained == 2)
    && f.drained <= 2 && (f.drained > 0 ==> f.blocked)
  }

  ghost predicate OwnerOk(pcs: seq<Pc>, f: Flags) {
    && (f.owner.Some? ==> f.owner.value < |pcs| && (Owns(pcs[f.owner.value]) || f.suspended))
    && (forall t :: 0 <= t < |pcs| && Owns(pcs[t]) ==> f.owner == Some(t) && OwnerPc(pcs[t], f.drained, f.suspended))
  }

  /** Once admission is shut no load passes it, and only then is one refused; once a deck is drained none runs on it. */
  predicate QuietPc(pc: Pc, blocked: bool, drained: nat) {
    && (blocked ==> !pc.LoadDeck? && !pc.LoadAdmit?) && (pc.LoadRefuse? || pc.AllRefuse? ==> blocked)
    && (InProgress(pc) ==> pc.d >= drained)
  }

  ghost predicate QuietOk(pcs: seq<Pc>, blocked: bool, drained: nat) {
    forall t :: 0 <= t < |pcs| ==> QuietPc(pcs[t], blocked, drained)
  }

  /** The generation has advanced for a call the thread has still to make. */
  predicate Due(pc: Pc, d: Deck) { (pc.Loading? || pc.Halting? || pc.AllHalt?) && pc.d == d }

  /** The thread has made its call on the deck and not yet let go of it. */
  predicate HasLoaded(pc: Pc, d: Deck) { pc.LoadDone? && pc.d == d }
  predicate HasHalted(pc: Pc, d: Deck) {
    (pc.StopDone? && pc.acted && pc.d == d) || (pc.AllUnlock? && d < pc.k) || ((pc.AllStop? || pc.AllHalt?) && d < pc.d)
  }

  /** A deck that is free or held by thread t: one advance for each call, and what t's own last step
      on it says. A stop that carries a token goes on exactly if a whole number of cycles of calls
      has been made since. */
  ghost predicate EngineOk(session: Session, pc: Pc, d: Deck, t: nat) {
    var n := |session.calls|;
    && session.generation == GenerationAfter(n + if Due(pc, d) then 1 else 0)
    && (HasLoaded(pc, d) ==> 0 < n && session.calls[n - 1] == Loaded(t))
    && (HasHalted(pc, d) ==> 0 < n && session.calls[n - 1] == Halted(t))
    && (pc.Halting? && pc.d == d && pc.expected.Some? ==>
          pc.expected.value.calls <= n && SameCycle(pc.expected.value.calls, n))
    && (pc.StopDone? && pc.d == d && pc.acted && pc.expected.Some? ==>
          pc.expected.value.calls < n && SameCycle(pc.expected.value.calls, n - 1))
    && (pc.StopDone? && pc.d == d && !pc.acted ==>
          pc.expected.Some? && pc.expected.value.calls <= n && !SameCycle(pc.expected.value.calls, n))
  }

  ghost predicate EnginesOk(pcs: seq<Pc>, holder: Option<nat>, session: Session, d: Deck) {
    match holder
    case None => session.generation == GenerationAfter(|session.calls|)
    case Some(t) => t < |pcs| ==> EngineOk(session, pcs[t], d, t)
  }

  ghost predicate SessionOk(session: Session) {
    forall token :: token in session.issued ==>
      token.calls <= |session.calls| && token.generation == GenerationAfter(token.calls)
  }

  ghost predicate TokenOk(pc: Pc, session: Session, d: Deck) {
    (pc.StopDeck? || pc.Stopping?) && pc.d == d && pc.expected.Some? ==>
      pc.expected.value.generation != 0 && pc.expected.value in session.issued
  }

  ghost predicate TokensOk(pcs: seq<Pc>, session: Session, d: Deck) {
    forall t :: 0 <= t < |pcs| ==> TokenOk(pcs[t], session, d)
  }

  ghost predicate SessionsOk(pcs: seq<Pc>, holder: Option<nat>, session: Session, d: Deck) {
    SessionOk(session) && EnginesOk(pcs, holder, session, d) && TokensOk(pcs, session, d)
  }

  ghost predicate Inv(s: State) {
    && AdmOk(s.pcs, s.shared.locks.adm)
    && DeckOk(s.pcs, 0, s.shared.locks.deck0) && DeckOk(s.pcs, 1, s.shared.locks.deck1)
    && FlagsOk(s.shared.flags) && OwnerOk(s.pcs, s.shared.flags)
    && QuietOk(s.pcs, s.shared.flags.blocked, s.shared.flags.drained)
    && SessionsOk(s.pcs, s.shared.locks.deck0, s.shared.deck0, 0)
    && SessionsOk(s.pcs, s.shared.locks.deck1, s.shared.deck1, 1)
  }

  /** A state a run can be in. */
  type Live = s: State | Inv(s) ghost witness Start(0)

  // ------------------------------------------------------------------ a step of one thread

  /** What the invariant says about one thread: where it stands, and each deck's session. */
  ghost predicate Here(l: Local, t: nat) {
    Place(l, t) && DeckHere(l, 0, t) && DeckHere(l, 1, t)
  }

  ghost predicate Place(l: Local, t: nat) {
    && (HoldsAdm(l.pc) <==> l.shared.locks.adm == Some(t))
    && (HoldsDeck(l.pc, 0) <==> l.shared.locks.deck0 == Some(t))
    && (HoldsDeck(l.pc, 1) <==> l.shared.locks.deck1 == Some(t))
    && FlagsOk(l.shared.flags)
    && (Owns(l.pc) ==> l.shared.flags.owner == Some(t) && OwnerPc(l.pc, l.shared.flags.drained, l.shared.flags.suspended))
    && (l.shared.flags.owner == Some(t) ==> Owns(l.pc) || l.shared.flags.suspended)
    && QuietPc(l.pc, l.shared.flags.blocked, l.shared.flags.drained)
  }

  ghost predicate DeckHere(l: Local, d: Deck, t: nat) {
    var session, holder := SessionOf(l.shared, d), Holder(l.shared.locks, d);
    && SessionOk(session) && TokenOk(l.pc, session, d)
    && (holder.None? || holder == Some(t) ==> EngineOk(session, l.pc, d, t))
  }

  /** A lock or a right is passed between nobody and thread t only. */
  predicate Passed(h: Option<nat>, h': Option<nat>, t: nat) {
    h' == h || ((h.None? || h == Some(t)) && (h'.None? || h' == Some(t)))
  }

  /** What a step of thread t may do to what is shared. */
  ghost predicate Fair(m: Shared, m': Shared, t: nat) {
    PlaceFair(m, m', t) && DeckFair(m, m', 0, t) && DeckFair(m, m', 1, t)
  }

  /** Only the holder of a deck changes its session, and no generation handed out is forgotten. */
  ghost predicate DeckFair(m: Shared, m': Shared, d: Deck, t: nat) {
    || SessionOf(m', d) == SessionOf(m, d)
    || (Holder(m.locks, d) == Some(t) && SessionOf(m, d).issued <= SessionOf(m', d).issued)
  }

  ghost predicate PlaceFair(m: Shared, m': Shared, t: nat) {
    && Passed(m.locks.adm, m'.locks.adm, t)
    && Passed(m.locks.deck0, m'.locks.deck0, t) && Passed(m.locks.deck1, m'.locks.deck1, t)
    && Passed(m.flags.owner, m'.flags.owner, t)
    && ((m'.flags.drained == m.flags.drained && m'.flags.suspended == m.flags.suspended) || m.flags.owner == Some(t))
    && (m'.flags.blocked != m.flags.blocked ==> m.locks.adm == Some(t))
    && (m'.flags.drained <= m.flags.drained || Drains(m, m', t))
  }

  /** The owner of the suspension has just locked one more deck. */
  predicate Drains(m: Shared, m': Shared, t: nat) {
    && m'.flags.drained == m.flags.drained + 1 && m.flags.blocked
    && ((m.flags.drained == 0 && m'.locks.deck0 == Some(t)) || (m.flags.drained == 1 && m'.locks.deck1 == Some(t)))
  }

  lemma {:induction false} InvHere(s: Live, t: nat)
    requires t < |s.pcs|
    ensures Here(Local(s.pcs[t], s.shared), t)
  {
    IdleEngine(s.shared.deck0, s.pcs[t], 0, t);
    IdleEngine(s.shared.deck1, s.pcs[t], 1, t);
    hide HoldsAdm, HoldsDeck, FlagsOk, SessionOk, TokenOk, OwnerPc, Owns, QuietPc, EngineOk, GenerationAfter;
  }

  lemma IdleEngine(session: Session, pc: Pc, d: Deck, t: nat)
    ensures !HoldsDeck(pc, d) ==> (EngineOk(session, pc, d, t) <==> session.generation == GenerationAfter(|session.calls|))
  {
    hide GenerationAfter, SameCycle;
  }

  lemma SessionsKept(s: State, s': State, t: nat, d: Deck)
    requires t < |s.pcs| == |s'.pcs| && s'.pcs == s.pcs[t := s'.pcs[t]]
    requires SessionsOk(s.pcs, Holder(s.shared.locks, d), SessionOf(s.shared, d), d)
    requires Passed(Holder(s.shared.locks, d), Holder(s'.shared.locks, d), t) && DeckFair(s.shared, s'.shared, d, t)
    requires DeckHere(Local(s'.pcs[t], s'.shared), d, t)
    requires HoldsDeck(s'.pcs[t], d) <==> Holder(s'.shared.locks, d) == Some(t)
    ensures SessionsOk(s'.pcs, Holder(s'.shared.locks, d), SessionOf(s'.shared, d), d)
  {
    var session, session' := SessionOf(s.shared, d), SessionOf(s'.shared, d);
    IdleEngine(session', s'.pcs[t], d, t);
    hide HoldsDeck, SessionOk, EngineOk, GenerationAfter, SessionOf, Holder;
    forall u | 0 <= u < |s'.pcs| ensures TokenOk(s'.pcs[u], session', d) {
      if u != t {
        assert TokenOk(s.pcs[u], session, d) && s'.pcs[u] == s.pcs[u];
      }
    }
  }

  lemma LocksKept(s: Live, s': State, t: nat)
    requires t < |s.pcs| == |s'.pcs| && s'.pcs == s.pcs[t := s'.pcs[t]]
    requires Fair(s.shared, s'.shared, t) && Here(Local(s'.pcs[t], s'.shared), t)
    ensures AdmOk(s'.pcs, s'.shared.locks.adm)
    ensures DeckOk(s'.pcs, 0, s'.shared.locks.deck0) && DeckOk(s'.pcs, 1, s'.shared.locks.deck1)
  {
    hide HoldsAdm, HoldsDeck, FlagsOk, OwnerOk, QuietOk, QuietPc, SessionsOk, DeckHere, DeckFair, OwnerPc, Owns, Drains;
  }

  lemma OwnerKept(s: Live, s': State, t: nat)
    requires t < |s.pcs| == |s'.pcs| && s'.pcs == s.pcs[t := s'.pcs[t]]
    requires Fair(s.shared, s'.shared, t) && Here(Local(s'.pcs[t], s'.shared), t)
    ensures OwnerOk(s'.pcs, s'.shared.flags)
  {
    hide HoldsAdm, HoldsDeck, AdmOk, DeckOk, QuietOk, QuietPc, SessionsOk, DeckHere, DeckFair, OwnerPc, Owns, Drains;
  }

  lemma QuietKept(s: Live, s': State, t: nat)
    requires t < |s.pcs| == |s'.pcs| && s'.pcs == s.pcs[t := s'.pcs[t]]
    requires Fair(s.shared, s'.shared, t) && Here(Local(s'.pcs[t], s'.shared), t)
    requires DeckOk(s'.pcs, 0, s'.shared.locks.deck0) && DeckOk(s'.pcs, 1, s'.shared.locks.deck1)
    ensures QuietOk(s'.pcs, s'.shared.flags.blocked, s'.shared.flags.drained)
  {
    hide SessionsOk, DeckHere, DeckFair, OwnerPc, Owns, OwnerOk;
    forall u | 0 <= u < |s'.pcs| ensures QuietPc(s'.pcs[u], s'.shared.flags.blocked, s'.shared.flags.drained) {
      if u != t {
        assert QuietPc(s.pcs[u], s.shared.flags.blocked, s.shared.flags.drained);
        assert s'.pcs[u] == s.pcs[u];
        assert HoldsAdm(s.pcs[u]) <==> s.shared.locks.adm == Some(u);
        assert s'.shared.flags.drained > s.shared.flags.drained ==> !HoldsDeck(s'.pcs[u], s.shared.flags.drained);
      }
    }
  }

  lemma TokenMatches(session: Session, token: Token)
    requires SessionOk(session) && token in session.issued && token.generation != 0
    requires session.generation == GenerationAfter(|session.calls|)
    ensures token.calls <= |session.calls|
    ensures session.generation == token.generation <==> SameCycle(token.calls, |session.calls|)
  {
    if token.calls > 0 { GenerationMatches(token.calls, |session.calls|); }
  }

  /** The three ways a thread changes the session of a deck it holds. */
  lemma SessionMoves(session: Session, e: Event)
    requires SessionOk(session)
    ensures SessionOk(session.(generation := NextGeneration(session.generation)))
    ensures SessionOk(session.(calls := session.calls + [e]))
    ensures var n := |session.calls|;
            session.generation == GenerationAfter(n) ==>
              && NextGeneration(session.generation) == GenerationAfter(n + 1)
              && SessionOk(session.(issued := session.issued + {Token(session.generation, n)}))
  {
    AdvanceCycles(|session.calls|);
    hide GenerationAfter, NextGeneration;
  }

  lemma BeginMoves(l: Local, t: nat, op: Op)
    requires Place(l, t)
    ensures Place(Begin(l, t, op), t) && PlaceFair(l.shared, Begin(l, t, op).shared, t)
  {
  }

  lemma LoadMoves(l: Local, t: nat)
    requires Place(l, t) && IsLoad(l.pc)
    ensures Place(LoadStep(l, t), t) && PlaceFair(l.shared, LoadStep(l, t).shared, t)
  {
    hide NextGeneration;
  }

  lemma StopMoves(l: Local, t: nat)
    requires Place(l, t) && IsStop(l.pc)
    ensures Place(StopStep(l, t), t) && PlaceFair(l.shared, StopStep(l, t).shared, t)
  {
    hide NextGeneration, Acts;
  }

  lemma AllMoves(l: Local, t: nat, ok: bool)
    requires Place(l, t)
    ensures Place(AllStep(l, t, ok), t) && PlaceFair(l.shared, AllStep(l, t, ok).shared, t)
  {
    hide NextGeneration;
  }

  lemma BeginMovesDeck(l: Local, t: nat, op: Op, d: Deck)
    requires Place(l, t) && DeckHere(l, d, t)
    ensures DeckHere(Begin(l, t, op), d, t) && DeckFair(l.shared, Begin(l, t, op).shared, d, t)
  {
    hide SessionOk, GenerationAfter, FlagsOk, QuietPc, Owns, OwnerPc, HoldsAdm;
  }

  predicate LoadChanges(pc: Pc, d: Deck) { (pc.LoadStart? || pc.Loading? || pc.LoadDone?) && pc.d == d }

  lemma LoadChangesDeck(l: Local, t: nat, d: Deck)
    requires Place(l, t) && DeckHere(l, d, t) && LoadChanges(l.pc, d)
    ensures DeckHere(LoadStep(l, t), d, t) && DeckFair(l.shared, LoadStep(l, t).shared, d, t)
  {
    assert Holder(l.shared.locks, d) == Some(t);
    hide SessionOk, GenerationAfter, NextGeneration, SameCycle, Place, HoldsDeck;
    SessionMoves(SessionOf(l.shared, d), Loaded(t));
  }

  lemma LoadLeavesDeck(l: Local, t: nat, d: Deck)
    requires DeckHere(l, d, t) && !LoadChanges(l.pc, d)
    ensures DeckHere(LoadStep(l, t), d, t) && DeckFair(l.shared, LoadStep(l, t).shared, d, t)
  {
    hide SessionOk, GenerationAfter, NextGeneration, SameCycle;
  }

  lemma LoadMovesDeck(l: Local, t: nat, d: Deck)
    requires Place(l, t) && DeckHere(l, d, t)
    ensures DeckHere(LoadStep(l, t), d, t) && DeckFair(l.shared, LoadStep(l, t).shared, d, t)
  {
    hide *;
    if LoadChanges(l.pc, d) { LoadChangesDeck(l, t, d); } else { LoadLeavesDeck(l, t, d); }
  }

  predicate StopChanges(pc: Pc, d: Deck) { (pc.Stopping? || pc.Halting? || pc.Reading?) && pc.d == d }

  lemma StopChangesDeck(l: Local, t: nat, d: Deck)
    requires Place(l, t) && DeckHere(l, d, t) && StopChanges(l.pc, d)
    ensures DeckHere(StopStep(l, t), d, t) && DeckFair(l.shared, StopStep(l, t).shared, d, t)
  {
    assert Holder(l.shared.locks, d) == Some(t);
    hide SessionOk, GenerationAfter, NextGeneration, SameCycle, Place, HoldsDeck;
    SessionMoves(SessionOf(l.shared, d), Halted(t));
    if l.pc.Stopping? && l.pc.expected.Some? {
      TokenMatches(SessionOf(l.shared, d), l.pc.expected.value);
    }
  }

  lemma StopLeavesDeck(l: Local, t: nat, d: Deck)
    requires DeckHere(l, d, t) && !StopChanges(l.pc, d)
    requires l.pc.StopDone? && l.pc.d == d ==> Holder(l.shared.locks, d) == Some(t)
    ensures DeckHere(StopStep(l, t), d, t) && DeckFair(l.shared, StopStep(l, t).shared, d, t)
  {
    hide SessionOk, GenerationAfter, NextGeneration, SameCycle;
  }

  lemma StopMovesDeck(l: Local, t: nat, d: Deck)
    requires Place(l, t) && DeckHere(l, d, t)
    ensures DeckHere(StopStep(l, t), d, t) && DeckFair(l.shared, StopStep(l, t).shared, d, t)
  {
    assert l.pc.StopDone? && l.pc.d == d ==> Holder(l.shared.locks, d) == Some(t);
    hide *;
    if StopChanges(l.pc, d) { StopChangesDeck(l, t, d); } else { StopLeavesDeck(l, t, d); }
  }

  predicate AllChanges(pc: Pc, d: Deck) { (pc.AllStop? || pc.AllHalt?) && pc.d == d }

  lemma AllChangesDeck(l: Local, t: nat, ok: bool, d: Deck)
    requires Place(l, t) && DeckHere(l, d, t) && AllChanges(l.pc, d)
    ensures DeckHere(AllStep(l, t, ok), d, t) && DeckFair(l.shared, AllStep(l, t, ok).shared, d, t)
  {
    assert Holder(l.shared.locks, d) == Some(t);
    hide SessionOk, GenerationAfter, NextGeneration, SameCycle, Place, HoldsDeck;
    SessionMoves(SessionOf(l.shared, d), Halted(t));
  }

  lemma AllLeavesDeck(l: Local, t: nat, ok: bool, d: Deck)
    requires DeckHere(l, d, t) && !AllChanges(l.pc, d) && (HasHalted(l.pc, d) ==> Holder(l.shared.locks, d) == Some(t))
    requires l.pc.AllUnlock? ==> 1 <= l.pc.k <= 2
    ensures DeckHere(AllStep(l, t, ok), d, t) && DeckFair(l.shared, AllStep(l, t, ok).shared, d, t)
  {
    hide SessionOk, GenerationAfter, NextGeneration, SameCycle;
  }

  lemma AllMovesDeck(l: Local, t: nat, ok: bool, d: Deck)
    requires Place(l, t) && DeckHere(l, d, t) && !IsLoad(l.pc) && !IsStop(l.pc)
    ensures DeckHere(AllStep(l, t, ok), d, t) && DeckFair(l.shared, AllStep(l, t, ok).shared, d, t)
  {
    assert HasHalted(l.pc, d) ==> Holder(l.shared.locks, d) == Some(t);
    assert l.pc.AllUnlock? ==> 1 <= l.pc.k <= 2;
    hide *;
    if AllChanges(l.pc, d) { AllChangesDeck(l, t, ok, d); } else { AllLeavesDeck(l, t, ok, d); }
  }

  lemma MovePlace(l: Local, a: Action)
    requires Place(l, a.t)
    ensures Place(Move(l, a), a.t) && PlaceFair(l.shared, Move(l, a).shared, a.t)
  {
    hide Place, PlaceFair, Begin, LoadStep, StopStep, AllStep, IsLoad, IsStop;
    if a.Call? { BeginMoves(l, a.t, a.op); }
    else if IsLoad(l.pc) { LoadMoves(l, a.t); }
    else if IsStop(l.pc) { StopMoves(l, a.t); }
    else { AllMoves(l, a.t, a.ok); }
  }

  lemma MoveDeck(l: Local, a: Action, d: Deck)
    requires Place(l, a.t) && DeckHere(l, d, a.t)
    ensures DeckHere(Move(l, a), d, a.t) && DeckFair(l.shared, Move(l, a).shared, d, a.t)
  {
    hide Place, DeckHere, DeckFair, Begin, LoadStep, StopStep, AllStep, IsLoad, IsStop;
    if a.Call? { BeginMovesDeck(l, a.t, a.op, d); }
    else if IsLoad(l.pc) { LoadMovesDeck(l, a.t, d); }
    else if IsStop(l.pc) { StopMovesDeck(l, a.t, d); }
    else { AllMovesDeck(l, a.t, a.ok, d); }
  }

  lemma NextKeeps(s: Live, a: Action)
    ensures Inv(Next(s, a))
  {
    if a.t < |s.pcs| {
      var t, l := a.t, Local(s.pcs[a.t], s.shared);
      InvHere(s, t);
      hide AdmOk, DeckOk, QuietOk, SessionsOk, OwnerOk, FlagsOk, Place, DeckHere, PlaceFair, DeckFair, Move;
      MovePlace(l, a);
      MoveDeck(l, a, 0);
      MoveDeck(l, a, 1);
      var s' := Next(s, a);
      LocksKept(s, s', t);
      OwnerKept(s, s', t);
      QuietKept(s, s', t);
      PlaceShared(Local(s'.pcs[t], s'.shared), s.shared, t);
      SessionsKept(s, s', t, 0);
      SessionsKept(s, s', t, 1);
    }
  }

  lemma PlaceShared(l: Local, m: Shared, t: nat)
    requires Place(l, t) && PlaceFair(m, l.shared, t)
    ensures FlagsOk(l.shared.flags)
    ensures HoldsDeck(l.pc, 0) <==> l.shared.locks.deck0 == Some(t)
    ensures HoldsDeck(l.pc, 1) <==> l.shared.locks.deck1 == Some(t)
    ensures Passed(m.locks.deck0, l.shared.locks.deck0, t) && Passed(m.locks.deck1, l.shared.locks.deck1, t)
  {
  }

  // ------------------------------------------------------------------ every run

  function Start(n: nat): State {
    State(seq(n, _ => Idle), Shared(Locks(None, None, None), Flags(false, None, 0, false), Session(0, [], {}), Session(0, [], {})))
  }

  function Run(s: State, actions: seq<Action>): State
    decreases actions
  {
    if actions == [] then s else Run(Next(s, actions[0]), actions[1..])
  }

  lemma {:induction false} RunKeeps(s: Live, actions: seq<Action>)
    ensures Inv(Run(s, actions))
    decreases actions
  {
    hide Inv, Next;
    if actions != [] {
      NextKeeps(s, actions[0]);
      RunKeeps(Next(s, actions[0]), actions[1..]);
    }
  }

  /** In every run, from a suspension that returned success until its owner resumes, no load on any
      deck has passed admission. */
  lemma {:induction false} SuspensionKeepsLoadsOut(n: nat, actions: seq<Action>)
    ensures var s := Run(Start(n), actions);
            s.shared.flags.suspended ==> forall t :: 0 <= t < |s.pcs| ==> !InProgress(s.pcs[t])
  {
    assert Inv(Start(n));
    RunKeeps(Start(n), actions);
    hide Run, Start, AdmOk, DeckOk, OwnerOk, SessionsOk;
  }

  /** The thread is changing a deck's session: loading or stopping it. */
  predicate Changes(pc: Pc, d: Deck) {
    ((pc.LoadStart? || pc.Loading? || pc.Stopping? || pc.Halting?) && pc.d == d) || pc.AllStop? || pc.AllHalt?
  }

  /** In every run at most one thread at a time changes a deck's session. */
  lemma {:induction false} DecksChangeOneAtATime(n: nat, actions: seq<Action>, t: nat, u: nat, d: Deck)
    requires t < |Run(Start(n), actions).pcs| && u < |Run(Start(n), actions).pcs|
    ensures var s := Run(Start(n), actions); Changes(s.pcs[t], d) && Changes(s.pcs[u], d) ==> t == u
  {
    assert Inv(Start(n));
    RunKeeps(Start(n), actions);
    var s := Run(Start(n), actions);
    InvHere(s, t);
    InvHere(s, u);
    hide Run, Start, Inv, DeckHere, FlagsOk, OwnerPc, QuietPc;
  }

  lemma StopHere(l: Local, t: nat)
    requires Here(l, t) && (l.pc.Halting? || l.pc.StopDone?) && l.pc.expected.Some?
    ensures var mine := l.pc.expected.value.calls;
            var now := |SessionOf(l.shared, l.pc.d).calls| - if l.pc.StopDone? && l.pc.acted then 1 else 0;
            && mine <= now && (l.pc.Halting? || l.pc.acted <==> SameCycle(mine, now))
            && (now - mine < 0xFFFF_FFFF ==> (l.pc.Halting? || l.pc.acted <==> now == mine))
  {
    assert Holder(l.shared.locks, l.pc.d) == Some(t);
    hide Place, HoldsDeck, SameCycle, GenerationAfter, SessionOk, TokenOk;
    var mine := l.pc.expected.value.calls;
    var now := |SessionOf(l.shared, l.pc.d).calls| - if l.pc.StopDone? && l.pc.acted then 1 else 0;
    if mine <= now < mine + 0xFFFF_FFFF { ShortOfACycle(mine, now); }
  }

  /** In every run, a stop that carries a generation goes on to stop the deck exactly if a whole
      number of cycles of 2^32 - 1 calls has been made on the deck since that generation was handed
      out. Short of a full cycle: exactly if no load and no stop, alone or of all decks, has been made
      since, so that it never touches a newer session. */
  lemma {:induction false} StopActsOnItsSession(n: nat, actions: seq<Action>, t: nat)
    requires t < |Run(Start(n), actions).pcs|
    ensures var s := Run(Start(n), actions);
            var pc := s.pcs[t];
            (pc.Halting? || pc.StopDone?) && pc.expected.Some? ==>
              var mine := pc.expected.value.calls;
              // Of the calls now on the deck the last is the stop itself, once it is made.
              var now := |SessionOf(s.shared, pc.d).calls| - if pc.StopDone? && pc.acted then 1 else 0;
              && mine <= now
              && (pc.Halting? || pc.acted <==> SameCycle(mine, now))
              && (now - mine < 0xFFFF_FFFF ==> (pc.Halting? || pc.acted <==> now == mine))
  {
    assert Inv(Start(n));
    RunKeeps(Start(n), actions);
    var s := Run(Start(n), actions);
    InvHere(s, t);
    hide Run, Start, Inv, Place, DeckHere, SameCycle;
    var pc := s.pcs[t];
    if (pc.Halting? || pc.StopDone?) && pc.expected.Some? {
      StopHere(Local(pc, s.shared), t);
    }
  }

  /** In every run, a load that is admitted is made, and so is every stop that acts and a stop of all
      decks on both: when the thread is about to let go of the deck, its own call is the last one. A
      stop without a generation always acts; a load or a suspension is refused only while loads are
      shut out. */
  lemma {:induction false} EveryCallIsMade(n: nat, actions: seq<Action>, t: nat, d: Deck)
    requires t < |Run(Start(n), actions).pcs|
    ensures var s := Run(Start(n), actions);
            var pc := s.pcs[t];
            var calls := SessionOf(s.shared, d).calls;
            && (pc.LoadDone? && pc.d == d ==> calls != [] && calls[|calls| - 1] == Loaded(t))
            && (pc.StopDone? && pc.d == d && (pc.acted || pc.expected.None?) ==> calls != [] && calls[|calls| - 1] == Halted(t))
            && (pc.AllUnlock? && pc.k == 2 ==> calls != [] && calls[|calls| - 1] == Halted(t))
            && (pc.LoadRefuse? || pc.AllRefuse? ==> s.shared.flags.blocked)
  {
    assert Inv(Start(n));
    RunKeeps(Start(n), actions);
    var s := Run(Start(n), actions);
    InvHere(s, t);
    assert QuietPc(s.pcs[t], s.shared.flags.blocked, s.shared.flags.drained);
    hide Run, Start, Inv, Place, DeckHere, SameCycle;
    CallHere(Local(s.pcs[t], s.shared), d, t);
  }

  lemma CallHere(l: Local, d: Deck, t: nat)
    requires Here(l, t)
    ensures var calls := SessionOf(l.shared, d).calls;
            && (l.pc.LoadDone? && l.pc.d == d ==> calls != [] && calls[|calls| - 1] == Loaded(t))
            && (l.pc.StopDone? && l.pc.d == d && (l.pc.acted || l.pc.expected.None?) ==> calls != [] && calls[|calls| - 1] == Halted(t))
            && (l.pc.AllUnlock? && l.pc.k == 2 ==> calls != [] && calls[|calls| - 1] == Halted(t))
  {
    assert HoldsDeck(l.pc, d) ==> Holder(l.shared.locks, d) == Some(t);
    assert DeckHere(l, d, t);
    hide Place, GenerationAfter, SameCycle, SessionOk, TokenOk;
  }

  /** What a load hands out when it returns is a generation by which its own session can be stopped. */
  lemma LoadHandsOutItsSession(n: nat, actions: seq<Action>, t: nat, ok: bool)
    requires t < |Run(Start(n), actions).pcs| && Run(Start(n), actions).pcs[t].LoadDone?
    ensures var s := Run(Start(n), actions);
            var d := s.pcs[t].d;
            var session := SessionOf(Next(s, Step(t, ok)).shared, d);
            && session.calls != [] && session.calls[|session.calls| - 1] == Loaded(t)
            && session.generation != 0 && Token(session.generation, |session.calls|) in session.issued
  {
    assert Inv(Start(n));
    RunKeeps(Start(n), actions);
    hide Run, Start, Inv, Next;
    LoadReturns(Run(Start(n), actions), t, ok);
  }

  lemma LoadReturns(s: Live, t: nat, ok: bool)
    requires t < |s.pcs| && s.pcs[t].LoadDone?
    ensures var d := s.pcs[t].d;
            var session := SessionOf(Next(s, Step(t, ok)).shared, d);
            && session.calls != [] && session.calls[|session.calls| - 1] == Loaded(t)
            && session.generation != 0 && Token(session.generation, |session.calls|) in session.issued
  {
    InvHere(s, t);
    hide Inv, LoadStep, Place, DeckHere;
    LoadDoneHere(Local(s.pcs[t], s.shared), t);
  }

  lemma LoadDoneHere(l: Local, t: nat)
    requires Here(l, t) && l.pc.LoadDone?
    ensures var session := SessionOf(LoadStep(l, t).shared, l.pc.d);
            && session.calls != [] && session.calls[|session.calls| - 1] == Loaded(t)
            && session.generation != 0 && Token(session.generation, |session.calls|) in session.issued
  {
    CallHere(l, l.pc.d, t);
    assert Holder(l.shared.locks, l.pc.d) == Some(t);
    hide Place, SessionOk, TokenOk, SameCycle;
  }

  // ------------------------------------------------------------------ no deadlock

  /** The lock a thread waits for: admission before deck 0 before deck 1. */
  function Wants(pc: Pc): Option<nat> {
    if pc.LoadAdm? || pc.AllAdm? || pc.ResumeAdm? then Some(0)
    else if pc.LoadDeck? || pc.StopDeck? || pc.ReadDeck? then Some(1 + pc.d)
    else if pc.AllDeck? then Some(1 + pc.k)
    else None
  }

  function HolderOf(k: Locks, lock: nat): Option<nat> {
    if lock == 0 then k.adm else if lock == 1 then k.deck0 else k.deck1
  }

  predicate CanMove(s: State, t: nat)
    requires t < |s.pcs|
  {
    s.pcs[t] != Idle && (Wants(s.pcs[t]).Some? ==> HolderOf(s.shared.locks, Wants(s.pcs[t]).value).None?)
  }

  predicate Holds(pc: Pc, lock: nat) { if lock == 0 then HoldsAdm(pc) else HoldsDeck(pc, lock - 1) }

  lemma HoldersWantMore(pc: Pc, lock: nat)
    requires lock <= 2 && Holds(pc, lock)
    ensures pc != Idle && (Wants(pc).Some? ==> Wants(pc).value > lock)
  {
  }

  lemma HolderHolds(s: Live, lock: nat)
    requires lock <= 2
    ensures var u := HolderOf(s.shared.locks, lock); u.Some? ==> u.value < |s.pcs| && Holds(s.pcs[u.value], lock)
  {
    hide HoldsAdm, HoldsDeck, OwnerOk, QuietOk, SessionsOk, FlagsOk;
  }

  lemma WantsALock(pc: Pc, f: Flags)
    requires Owns(pc) ==> OwnerPc(pc, f.drained, f.suspended)
    ensures Wants(pc).Some? ==> Wants(pc).value <= 2
  {
  }

  /** A thread that waits is kept by a thread that holds a lock, which waits, if at all, for a
      later one. */
  lemma HolderWaitsFurther(s: Live, t: nat)
    requires t < |s.pcs| && s.pcs[t] != Idle && !CanMove(s, t)
    ensures Wants(s.pcs[t]).Some? && Wants(s.pcs[t]).value <= 2
    ensures var u := HolderOf(s.shared.locks, Wants(s.pcs[t]).value);
            && u.Some? && u.value < |s.pcs| && s.pcs[u.value] != Idle
            && (Wants(s.pcs[u.value]).Some? ==> Wants(s.pcs[u.value]).value > Wants(s.pcs[t]).value)
  {
    var lock := Wants(s.pcs[t]).value;
    WantsALock(s.pcs[t], s.shared.flags);
    HolderHolds(s, lock);
    HoldersWantMore(s.pcs[HolderOf(s.shared.locks, lock).value], lock);
    hide AdmOk, DeckOk, QuietOk, SessionsOk, Wants, Holds, FlagsOk, OwnerPc, Owns;
  }

  lemma {:induction false} SomeoneCanMove(s: Live, t: nat) returns (u: nat)
    requires t < |s.pcs| && s.pcs[t] != Idle
    ensures u < |s.pcs| && CanMove(s, u)
    decreases if Wants(s.pcs[t]).Some? then 3 - Wants(s.pcs[t]).value else 0
  {
    hide Inv;
    u := t;
    if !CanMove(s, t) {
      HolderWaitsFurther(s, t);
      u := HolderOf(s.shared.locks, Wants(s.pcs[t]).value).value;
      if !CanMove(s, u) {
        u := SomeoneCanMove(s, u);
      }
    }
  }

  predicate Unhindered(l: Local) { l.pc != Idle && (Wants(l.pc).Some? ==> HolderOf(l.shared.locks, Wants(l.pc).value).None?) }

  lemma LoadProceeds(l: Local, t: nat)
    requires IsLoad(l.pc) && Unhindered(l)
    ensures LoadStep(l, t).pc != l.pc
  {
    hide Advance, Engine, Issue, SetHolder;
  }

  lemma StopProceeds(l: Local, t: nat)
    requires IsStop(l.pc) && Unhindered(l)
    ensures StopStep(l, t).pc != l.pc
  {
    hide Advance, Engine, Issue, SetHolder, Acts;
  }

  lemma AllProceeds(l: Local, t: nat, ok: bool)
    requires !IsLoad(l.pc) && !IsStop(l.pc) && Unhindered(l) && Place(l, t)
    ensures AllStep(l, t, ok).pc != l.pc
  {
    hide Advance, Engine, Issue, SetHolder, HoldsAdm, HoldsDeck, QuietPc;
  }

  lemma MovingChanges(s: Live, t: nat, ok: bool)
    requires t < |s.pcs| && CanMove(s, t)
    ensures Next(s, Step(t, ok)).pcs[t] != s.pcs[t]
  {
    InvHere(s, t);
    hide Inv, DeckHere, Holder, HolderOf, Wants, LoadStep, StopStep, AllStep, IsLoad, IsStop, Place;
    var l := Local(s.pcs[t], s.shared);
    if IsLoad(l.pc) { LoadProceeds(l, t); } else if IsStop(l.pc) { StopProceeds(l, t); } else { AllProceeds(l, t, ok); }

  }

  /** In every run, while any call is under way some thread can take a step: the locks never
      deadlock. */
  lemma {:induction false} NeverDeadlocked(n: nat, actions: seq<Action>)
    ensures var s := Run(Start(n), actions);
            (exists t :: 0 <= t < |s.pcs| && s.pcs[t] != Idle) ==>
              exists t: nat :: t < |s.pcs| && s.pcs[t] != Idle && Next(s, Step(t, true)).pcs[t] != s.pcs[t]
  {
    assert Inv(Start(n));
    RunKeeps(Start(n), actions);
    hide Inv, Run, Start, Next;
    var s := Run(Start(n), actions);
    if t :| 0 <= t < |s.pcs| && s.pcs[t] != Idle {
      var u := SomeoneCanMove(s, t);
      MovingChanges(s, u, true);
    }
  }
}
