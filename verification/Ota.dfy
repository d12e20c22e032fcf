/** The over-the-air updater of the control board and the HTTP request that drives it. The flash,
    the hash engine and the client can fail at any call. The hash is an arbitrary function. */
module Ota {
  import opened Wrappers
  import opened Words

  const PROJECT := "control-board-s3"
  const IMAGE_HEADER := 24
  const BUNDLE_HEADER := 188
  const MAX_IMAGE := 0x1E_0000
  const HTTP_BUFFER := 4096
  const MAX_TIMEOUTS := 5
  const DEADLINE_MS := 180_000
  const WINDOW_MS := 10_000
  const MIN_WINDOW_BYTES := 4096

  datatype Phase = Idle | Receiving | Ready | Failed

  datatype Manifest = Manifest(forS3: bool, imageSize: nat, sha: seq<byte>, version: string)

  /** What the flash reports about the image in the target slot. */
  datatype Description = Description(project: string, version: string)

  datatype Rc = Fine | InvalidState | InvalidArg | NotFound | InvalidSize | Failure | InvalidCrc | InvalidResponse

  /** The updater. `handle` names the open flash handle, `hashed` the bytes given to the hash
      engine, `written` the bytes given to the flash through the last handle. `handles` counts the
      handles opened, `closed` lists those ended or aborted; `manifest` is the last one accepted
      and `image` what the flash last described. */
  datatype Updater = Updater(
    phase: Phase, expected: nat, received: nat, handle: Option<nat>, hashing: bool, hashed: seq<byte>,
    sha: seq<byte>, version: string,
    written: seq<byte>, handles: nat, closed: seq<nat>, manifest: Option<Manifest>, image: Option<Description>)

  const OTA0 := Updater(Idle, 0, 0, None, false, [], [], "", [], 0, [], None, None)

  // ------------------------------------------------------------------ policies

  predicate SizeValid(imageSize: nat, slotSize: nat) {
    imageSize >= IMAGE_HEADER && slotSize > 0 && imageSize <= slotSize
  }

  predicate HeaderValid(data: seq<byte>) {
    |data| >= IMAGE_HEADER && data[0] == 0xE9 && Rd16(data[12..14]) == 0x0009
  }

  datatype FinishPolicy = FinishInvalid | FinishIncomplete | FinishVerify

  function PolicyFinish(receiving: bool, open: bool, received: nat, expected: nat): FinishPolicy {
    if !receiving then FinishInvalid
    else if !open || received != expected then FinishIncomplete
    else FinishVerify
  }

  // ------------------------------------------------------------------ operations

  function CloseHandle(u: Updater): Updater {
    if u.handle.Some? then u.(handle := None, closed := u.closed + [u.handle.value]) else u
  }

  function CloseResources(u: Updater): Updater {
    CloseHandle(u).(hashing := false, hashed := if u.hashing then [] else u.hashed)
  }

  function Fail(u: Updater): Updater { u.(phase := Failed) }

  function Init(u: Updater): Updater {
    CloseResources(u).(phase := Idle, expected := 0, received := 0, hashed := [])
  }

  datatype BeginEnv = BeginEnv(slotSize: Option<nat>, beginOk: bool, hashOk: bool)

  function Open(u: Updater): Updater {
    u.(handle := Some(u.handles), handles := u.handles + 1, written := [])
  }

  function Begin(u: Updater, m: Manifest, env: BeginEnv): (Updater, Rc) {
    if !m.forS3 then (u, InvalidArg)
    else if u.phase == Receiving then (u, InvalidState)
    else
      var c := CloseResources(u);
      if env.slotSize.None? then (Fail(c), NotFound)
      else if !SizeValid(m.imageSize, env.slotSize.value) then (Fail(c), InvalidSize)
      else if !env.beginOk then (Fail(c), Failure)
      else if !env.hashOk then (Fail(CloseHandle(Open(c))), Failure)
      else
        (Open(c).(phase := Receiving, expected := m.imageSize, received := 0, hashing := true, hashed := [],
                  sha := m.sha, version := m.version, manifest := Some(m)), Fine)
  }

  datatype WriteEnv = WriteEnv(flashOk: bool, hashOk: bool)

  function Write(u: Updater, data: seq<byte>, env: WriteEnv): (Updater, Rc) {
    if data == [] then (u, InvalidArg)
    else if u.handle.None? || u.phase != Receiving || u.received > u.expected || |data| > u.expected - u.received
    then (u, InvalidState)
    else if !env.flashOk then (CloseResources(Fail(u)), Failure)
    else
      var w := u.(written := u.written + data);
      if !env.hashOk then (CloseResources(Fail(w)), Failure)
      else (w.(hashed := u.hashed + data, received := u.received + |data|), Fine)
  }

  datatype FinishEnv = FinishEnv(hashOk: bool, endOk: bool, description: Option<Description>, bootOk: bool)

  function Finish(u: Updater, sha: seq<byte> -> seq<byte>, env: FinishEnv): (Updater, Rc) {
    match PolicyFinish(u.phase == Receiving, u.handle.Some?, u.received, u.expected)
    case FinishInvalid => (CloseResources(u), InvalidState)
    case FinishIncomplete => (Fail(CloseResources(u)), InvalidSize)
    case FinishVerify => Verify(u, sha(u.hashed), env)
  }

  /** The checks after the last byte, in the order they are made, and whether they got as far as
      the description of the image. */
  function Judgement(digestOk: bool, version: string, env: FinishEnv): (Rc, bool) {
    if !env.hashOk then (Failure, false)
    else if !digestOk then (InvalidCrc, false)
    else if !env.endOk || env.description.None? then (Failure, false)
    else if env.description.value.project != PROJECT then (InvalidResponse, true)
    else if env.description.value.version != version then (InvalidResponse, true)
    else if !env.bootOk then (Failure, true)
    else (Fine, true)
  }

  /** The handle is ended or aborted, whatever the checks say. */
  function Verify(u: Updater, digest: seq<byte>, env: FinishEnv): (Updater, Rc) {
    var (rc, described) := Judgement(digest == u.sha, u.version, env);
    (CloseHandle(u).(hashing := false, hashed := [], phase := if rc == Fine then Ready else Failed,
                     image := if described then env.description else u.image), rc)
  }

  function Abort(u: Updater): Updater { Fail(CloseResources(u)) }

  // ------------------------------------------------------------------ every run

  datatype Call =
    | CallInit
    | CallBegin(m: Manifest, beginEnv: BeginEnv)
    | CallWrite(data: seq<byte>, writeEnv: WriteEnv)
    | CallFinish(finishEnv: FinishEnv)
    | CallAbort

  function Apply(u: Updater, sha: seq<byte> -> seq<byte>, call: Call): Updater {
    match call
    case CallInit => Init(u)
    case CallBegin(m, env) => Begin(u, m, env).0
    case CallWrite(data, env) => Write(u, data, env).0
    case CallFinish(env) => Finish(u, sha, env).0
    case CallAbort => Abort(u)
  }

  function Run(u: Updater, sha: seq<byte> -> seq<byte>, calls: seq<Call>): Updater
    decreases calls
  {
    if calls == [] then u else Run(Apply(u, sha, calls[0]), sha, calls[1..])
  }

  function Upto(n: nat): seq<nat> { seq(n, i requires 0 <= i => i) }

  /** The handles closed so far are all those opened, except the open one, each once and in order. */
  predicate HandlesOk(u: Updater) {
    if u.handle.Some? then u.handles == u.handle.value + 1 && u.closed == Upto(u.handle.value)
    else u.closed == Upto(u.handles)
  }

  /** The bytes in flash are a whole image of the accepted manifest, and so described. */
  predicate Verified(u: Updater, sha: seq<byte> -> seq<byte>) {
    && u.manifest.Some? && |u.written| == u.manifest.value.imageSize && sha(u.written) == u.manifest.value.sha
    && u.image == Some(Description(PROJECT, u.manifest.value.version))
  }

  predicate ReceivingOk(u: Updater) {
    && u.manifest.Some? && u.expected == u.manifest.value.imageSize
    && u.sha == u.manifest.value.sha && u.version == u.manifest.value.version
    && u.hashed == u.written && u.received == |u.written| <= u.expected
  }

  predicate Inv(u: Updater, sha: seq<byte> -> seq<byte>) {
    && (u.handle.Some? <==> u.phase == Receiving) && (u.hashing <==> u.phase == Receiving)
    && HandlesOk(u)
    && (u.phase == Receiving ==> ReceivingOk(u))
    && (u.phase == Ready ==> Verified(u, sha))
  }

  lemma CloseKeeps(u: Updater)
    requires HandlesOk(u)
    ensures HandlesOk(CloseHandle(u)) && HandlesOk(CloseResources(u)) && CloseResources(u).handle.None?
  {
    if u.handle.Some? {
      assert Upto(u.handle.value) + [u.handle.value] == Upto(u.handle.value + 1);
    }
  }

  lemma BeginKeeps(u: Updater, sha: seq<byte> -> seq<byte>, m: Manifest, env: BeginEnv)
    requires Inv(u, sha)
    ensures Inv(Begin(u, m, env).0, sha)
  {
    CloseKeeps(u);
    var c := CloseResources(u);
    CloseKeeps(Open(c));
    hide Upto, SizeValid;
  }

  lemma WriteKeeps(u: Updater, sha: seq<byte> -> seq<byte>, data: seq<byte>, env: WriteEnv)
    requires Inv(u, sha)
    ensures Inv(Write(u, data, env).0, sha)
  {
    CloseKeeps(u);
    hide Upto;
  }

  lemma FinishKeeps(u: Updater, sha: seq<byte> -> seq<byte>, env: FinishEnv)
    requires Inv(u, sha)
    ensures Inv(Finish(u, sha, env).0, sha)
  {
    CloseKeeps(u);
    hide Upto;
  }

  lemma {:induction false} ApplyKeeps(u: Updater, sha: seq<byte> -> seq<byte>, call: Call)
    requires Inv(u, sha)
    ensures Inv(Apply(u, sha, call), sha)
  {
    match call
    case CallBegin(m, env) => BeginKeeps(u, sha, m, env);
    case CallWrite(data, env) => WriteKeeps(u, sha, data, env);
    case CallFinish(env) => FinishKeeps(u, sha, env);
    case CallInit => CloseKeeps(u);
    case CallAbort => CloseKeeps(u);
  }

  lemma {:induction false} RunKeeps(u: Updater, sha: seq<byte> -> seq<byte>, calls: seq<Call>)
    requires Inv(u, sha)
    ensures Inv(Run(u, sha, calls), sha)
    decreases calls
  {
    hide Inv, Apply;
    if calls != [] {
      ApplyKeeps(u, sha, calls[0]);
      RunKeeps(Apply(u, sha, calls[0]), sha, calls[1..]);
    }
  }

  /** In every run with failing flash and hash calls: the updater is ready to reboot only with a
      verified image in flash, a handle is open exactly while it receives, and every handle opened
      before the open one has been closed exactly once. */
  lemma {:induction false} EveryRunIsSafe(sha: seq<byte> -> seq<byte>, calls: seq<Call>)
    ensures var u := Run(OTA0, sha, calls);
            && (u.phase == Ready ==> Verified(u, sha))
            && (u.handle.Some? <==> u.phase == Receiving)
            && HandlesOk(u)
  {
    assert HandlesOk(OTA0);
    RunKeeps(OTA0, sha, calls);
    hide Run;
  }

  /** Finishing succeeds exactly when every byte of the announced length was written, the digest
      and the description match and every call into the flash and the hash engine succeeded. */
  lemma {:induction false} FinishSucceedsExactly(u: Updater, sha: seq<byte> -> seq<byte>, env: FinishEnv)
    requires Inv(u, sha)
    ensures Finish(u, sha, env).1 == Fine <==>
              && u.phase == Receiving && |u.written| == u.manifest.value.imageSize
              && env.hashOk && env.endOk && env.bootOk
              && sha(u.written) == u.manifest.value.sha
              && env.description == Some(Description(PROJECT, u.manifest.value.version))
    ensures Finish(u, sha, env).1 == Fine ==> Finish(u, sha, env).0.phase == Ready
    ensures Finish(u, sha, env).0.phase != Receiving
  {
    hide Upto;
  }

  /** Beginning succeeds exactly when no update is under way, the image is at least a header long and
      fits the slot, and every call succeeded. A manifest for another board, or one that comes during
      an update, changes nothing; any other failure leaves nothing open. */
  lemma BeginSucceedsExactly(u: Updater, m: Manifest, env: BeginEnv)
    ensures var (u', rc) := Begin(u, m, env);
            && (rc == Fine <==>
                  && m.forS3 && u.phase != Receiving && env.slotSize.Some?
                  && IMAGE_HEADER <= m.imageSize <= env.slotSize.value && env.beginOk && env.hashOk)
            && (rc == Fine ==> u'.phase == Receiving && u'.written == [] && u'.expected == m.imageSize && u'.manifest == Some(m))
            && (!m.forS3 || u.phase == Receiving ==> u' == u)
            && (m.forS3 && u.phase != Receiving && rc != Fine ==> u'.phase == Failed && u'.handle.None? && !u'.hashing)
  {
  }

  /** A write is taken exactly while receiving, when it is not empty and does not exceed the announced
      length, and both calls succeed. */
  lemma WriteSucceedsExactly(u: Updater, sha: seq<byte> -> seq<byte>, data: seq<byte>, env: WriteEnv)
    requires Inv(u, sha)
    ensures var (u', rc) := Write(u, data, env);
            && (rc == Fine <==>
                  && data != [] && u.phase == Receiving && |u.written| + |data| <= u.manifest.value.imageSize
                  && env.flashOk && env.hashOk)
            && (rc == Fine ==> u'.phase == Receiving && u'.written == u.written + data && u'.manifest == u.manifest)
  {
    hide Upto;
  }

  function Flat(pieces: seq<seq<byte>>): seq<byte> {
    if pieces == [] then [] else pieces[0] + Flat(pieces[1..])
  }

  function WriteAll(u: Updater, pieces: seq<seq<byte>>): Updater
    decreases pieces
  {
    if pieces == [] then u else WriteAll(Write(u, pieces[0], WriteEnv(true, true)).0, pieces[1..])
  }

  lemma {:induction false} PiecesAreWritten(u: Updater, sha: seq<byte> -> seq<byte>, pieces: seq<seq<byte>>)
    requires Inv(u, sha) && u.phase == Receiving && |u.written| + |Flat(pieces)| <= u.manifest.value.imageSize
    requires forall i :: 0 <= i < |pieces| ==> pieces[i] != []
    ensures var w := WriteAll(u, pieces);
            Inv(w, sha) && w.phase == Receiving && w.manifest == u.manifest && w.written == u.written + Flat(pieces)
    decreases pieces
  {
    hide Inv, Write;
    if pieces == [] {
      assert u.written + [] == u.written;
    } else {
      var u' := Write(u, pieces[0], WriteEnv(true, true)).0;
      WriteSucceedsExactly(u, sha, pieces[0], WriteEnv(true, true));
      WriteKeeps(u, sha, pieces[0], WriteEnv(true, true));
      PiecesAreWritten(u', sha, pieces[1..]);
      assert (u.written + pieces[0]) + Flat(pieces[1..]) == u.written + Flat(pieces);
    }
  }

  /** From any state but an update under way, a right image written in pieces of any sizes ends ready
      to reboot with exactly that image in flash, when no call fails. */
  lemma {:induction false} RightImageArrives(
      u: Updater, sha: seq<byte> -> seq<byte>, m: Manifest, slotSize: nat, pieces: seq<seq<byte>>)
    requires Inv(u, sha) && u.phase != Receiving && m.forS3 && IMAGE_HEADER <= m.imageSize <= slotSize
    requires forall i :: 0 <= i < |pieces| ==> pieces[i] != []
    requires |Flat(pieces)| == m.imageSize && sha(Flat(pieces)) == m.sha
    ensures var begun := Begin(u, m, BeginEnv(Some(slotSize), true, true)).0;
            var (last, rc) := Finish(WriteAll(begun, pieces), sha, FinishEnv(true, true, Some(Description(PROJECT, m.version)), true));
            rc == Fine && last.phase == Ready && last.written == Flat(pieces)
  {
    var env := BeginEnv(Some(slotSize), true, true);
    BeginSucceedsExactly(u, m, env);
    BeginKeeps(u, sha, m, env);
    hide Inv, Begin, Flat;
    var begun := Begin(u, m, env).0;
    PiecesAreWritten(begun, sha, pieces);
    assert [] + Flat(pieces) == Flat(pieces);
    var w := WriteAll(begun, pieces);
    var fin := FinishEnv(true, true, Some(Description(PROJECT, m.version)), true);
    FinishSucceedsExactly(w, sha, fin);
    FinishKeepsFlash(w, sha, fin);
    hide Finish, WriteAll;
  }

  lemma FinishKeepsFlash(u: Updater, sha: seq<byte> -> seq<byte>, env: FinishEnv)
    ensures Finish(u, sha, env).0.written == u.written
  {
  }

  // ------------------------------------------------------------------ the code that updates in place

  class Service {
    const digest: seq<byte> -> seq<byte>
    const parse: seq<byte> -> Option<Manifest>
    const signed: seq<byte> -> bool
    var phase: Phase
    var expected: nat
    var received: nat
    var handle: Option<nat>
    var hashing: bool
    var hashed: seq<byte>
    var sha: seq<byte>
    var version: string
    var handles: nat
    ghost var written: seq<byte>
    ghost var closed: seq<nat>
    ghost var manifest: Option<Manifest>
    ghost var image: Option<Description>

    ghost function View(): Updater
      reads this
    {
      Updater(phase, expected, received, handle, hashing, hashed, sha, version, written, handles, closed, manifest, image)
    }

    ghost predicate Valid()
      reads this
    {
      Inv(View(), digest)
    }

    constructor (digest: seq<byte> -> seq<byte>, parse: seq<byte> -> Option<Manifest>, signed: seq<byte> -> bool)
      ensures Valid() && View() == OTA0
    {
      this.digest, this.parse, this.signed := digest, parse, signed;
      phase, expected, received, handle, hashing, hashed, sha, version, handles := Idle, 0, 0, None, false, [], [], "", 0;
      written, closed, manifest, image := [], [], None, None;
    }

    method CloseFlash()
      modifies this
      ensures View() == CloseHandle(old(View()))
    {
      if handle.Some? {
        closed := closed + [handle.value];
        handle := None;
      }
    }

    method Close()
      modifies this
      ensures View() == CloseResources(old(View()))
    {
      CloseFlash();
      if hashing { hashed := []; }
      hashing := false;
    }

    method BeginUpdate(m: Manifest, env: BeginEnv) returns (rc: Rc)
      requires Valid()
      modifies this
      ensures Valid() && (View(), rc) == Begin(old(View()), m, env)
    {
      BeginKeeps(View(), digest, m, env);
      hide Inv, SizeValid, CloseResources, CloseHandle;
      if !m.forS3 { return InvalidArg; }
      if phase == Receiving { return InvalidState; }
      Close();
      if env.slotSize.None? { phase := Failed; return NotFound; }
      if !SizeValid(m.imageSize, env.slotSize.value) { phase := Failed; return InvalidSize; }
      if !env.beginOk { phase := Failed; return Failure; }
      handle, handles, written := Some(handles), handles + 1, [];
      if !env.hashOk {
        CloseFlash();
        phase := Failed;
        return Failure;
      }
      Expect(m);
      return Fine;
    }

    method Expect(m: Manifest)
      modifies this
      ensures View() == Updater(Receiving, m.imageSize, 0, old(handle), true, [], m.sha, m.version,
                                old(written), old(handles), old(closed), Some(m), old(image))
    {
      hashing, hashed, sha, version := true, [], m.sha, m.version;
      phase, expected, received, manifest := Receiving, m.imageSize, 0, Some(m);
    }

    method WriteData(data: seq<byte>, env: WriteEnv) returns (rc: Rc)
      requires Valid()
      modifies this
      ensures Valid() && (View(), rc) == Write(old(View()), data, env)
    {
      WriteKeeps(View(), digest, data, env);
      hide Inv;
      if data == [] { return InvalidArg; }
      if handle.None? || phase != Receiving || received > expected || |data| > expected - received { return InvalidState; }
      if !env.flashOk {
        phase := Failed;
        Close();
        return Failure;
      }
      written := written + data;
      if !env.hashOk {
        phase := Failed;
        Close();
        return Failure;
      }
      hashed, received := hashed + data, received + |data|;
      return Fine;
    }

    method FinishUpdate(env: FinishEnv) returns (rc: Rc)
      requires Valid()
      modifies this
      ensures Valid() && (View(), rc) == Finish(old(View()), digest, env)
    {
      FinishKeeps(View(), digest, env);
      hide Inv, Verify, CloseHandle;
      match PolicyFinish(phase == Receiving, handle.Some?, received, expected) {
        case FinishInvalid =>
          Close();
          return InvalidState;
        case FinishIncomplete =>
          Close();
          phase := Failed;
          return InvalidSize;
        case FinishVerify =>
          rc := VerifyImage(env);
      }
    }

    method VerifyImage(env: FinishEnv) returns (rc: Rc)
      modifies this
      ensures (View(), rc) == Verify(old(View()), digest(old(hashed)), env)
    {
      hide Judgement;
      var actual := digest(hashed);
      hashing, hashed := false, [];
      var described;
      rc, described := JudgeImage(actual, sha, version, env);
      CloseFlash();
      if described { image := env.description; }
      phase := if rc == Fine then Ready else Failed;
    }

    method JudgeImage(actual: seq<byte>, expectedSha: seq<byte>, expectedVersion: string, env: FinishEnv)
      returns (rc: Rc, described: bool)
      ensures (rc, described) == Judgement(actual == expectedSha, expectedVersion, env)
    {
      rc := if !env.hashOk then Failure else if actual != expectedSha then InvalidCrc else if !env.endOk then Failure else Fine;
      if rc == Fine && env.description.None? { rc := Failure; }
      described := rc == Fine;
      if rc == Fine && env.description.value.project != PROJECT { rc := InvalidResponse; }
      if rc == Fine && env.description.value.version != expectedVersion { rc := InvalidResponse; }
      if rc == Fine && !env.bootOk { rc := Failure; }
    }

    method AbortUpdate()
      requires Valid()
      modifies this
      ensures Valid() && View() == Abort(old(View()))
    {
      ApplyKeeps(View(), digest, CallAbort);
      hide Inv;
      Close();
      phase := Failed;
    }
  }

  // ------------------------------------------------------------------ the HTTP request

  datatype HttpResult = HttpOk | BadRequest | Forbidden | TooLarge | Conflict | Timeout | InternalError

  datatype Guard = Guard(started: u32, windowStarted: u32, total: nat, windowTotal: nat)

  datatype GuardResult = InTime | Deadline | TooSlow

  /** 180 s for the whole upload, and at least 4096 bytes in every window of 10 s. */
  function CheckGuard(g: Guard, now: u32): (Guard, GuardResult) {
    if Sub32(now, g.started) >= DEADLINE_MS then (g, Deadline)
    else if Sub32(now, g.windowStarted) < WINDOW_MS then (g, InTime)
    else if g.total - g.windowTotal < MIN_WINDOW_BYTES then (g, TooSlow)
    else (g.(windowStarted := now, windowTotal := g.total), InTime)
  }

  const RECV_TIMEOUT := -1
  const RECV_ERROR := -2

  /** The uploading client and the clock. `delivered` is every byte its socket has handed over. */
  class Client {
    ghost var delivered: seq<byte>

    /** Any number of bytes, any bytes, or an error. */
    method Receive(wanted: nat) returns (n: int, data: seq<byte>)
      modifies this
      ensures 0 < n <= wanted ==> |data| == n && delivered == old(delivered) + data
      ensures !(0 < n <= wanted) ==> delivered == old(delivered)
    {
      n, data := *, *;
      if 0 < n <= wanted {
        if |data| != n { data := seq(n, _ => 0); }
        delivered := delivered + data;
      }
    }

    method Now() returns (ms: u32) { ms := *; }
  }

  /** Why a guarded receive returned. */
  datatype Outcome = Got | Late(objection: GuardResult) | TooManyTimeouts | Broken

  /** At most five timeouts in a row, and the guard before and after each attempt. Bytes are handed
      on only with the whole upload within its deadline and its progress window, at the last reading
      of the clock; an objection of the guard or the fifth timeout gives RECV_TIMEOUT. */
  method GuardedReceive(client: Client, wanted: nat, g: Guard)
    returns (n: int, data: seq<byte>, g': Guard, ghost why: Outcome, ghost clock: u32)
    modifies client
    ensures n > 0 <==> why == Got
    ensures n > 0 ==> n <= wanted && |data| == n && client.delivered == old(client.delivered) + data
    ensures n > 0 ==> g'.total == g.total + n && g'.started == g.started
    ensures n > 0 ==> Sub32(clock, g'.started) < DEADLINE_MS && Sub32(clock, g'.windowStarted) < WINDOW_MS
    ensures n == RECV_TIMEOUT <==> why.Late? || why == TooManyTimeouts
    ensures n == RECV_ERROR <==> why == Broken
    ensures why.Late? ==> why.objection != InTime && CheckGuard(g', clock).1 == why.objection
    ensures n <= 0 ==> data == []
  {
    g', clock := g, 0;
    var timeouts := 0;
    while timeouts < MAX_TIMEOUTS
      invariant client.delivered == old(client.delivered)
      invariant g'.total == g.total && g'.started == g.started
    {
      var now := client.Now();
      clock := now;
      var (g1, early) := CheckGuard(g', now);
      g' := g1;
      if early != InTime { return RECV_TIMEOUT, [], g', Late(early), now; }
      n, data := client.Receive(wanted);
      if n > 0 {
        if n > wanted { return RECV_ERROR, [], g', Broken, now; }
        g' := g'.(total := g'.total + n);
        now := client.Now();
        var (g2, late) := CheckGuard(g', now);
        g' := g2;
        if late != InTime { return RECV_TIMEOUT, [], g', Late(late), now; }
        return n, data, g', Got, now;
      }
      if n != RECV_TIMEOUT { return RECV_ERROR, [], g', Broken, now; }
      timeouts := timeouts + 1;
    }
    return RECV_TIMEOUT, [], g', TooManyTimeouts, clock;
  }

  function Interrupted(n: int): HttpResult { if n == RECV_TIMEOUT then Timeout else BadRequest }

  /** Receives until at least `least` bytes of at most `most` are there: exactly those delivered. */
  method Gather(client: Client, least: nat, most: nat, g: Guard) returns (ok: bool, n: int, data: seq<byte>, g': Guard)
    requires least <= most
    modifies client
    ensures ok ==> least <= |data| <= most && client.delivered == old(client.delivered) + data
    ensures !ok ==> n <= 0
  {
    data, g', n := [], g, 0;
    while |data| < least
      invariant |data| <= most && client.delivered == old(client.delivered) + data
      decreases most - |data|
    {
      var more;
      ghost var why, clock;
      n, more, g', why, clock := GuardedReceive(client, most - |data|, g');
      if n <= 0 { return false, n, data, g'; }
      data := data + more;
    }
    return true, n, data, g';
  }

  /** One more piece of the image, from the client into the flash; anything but OK ends the request. */
  method Forward(o: Service, client: Client, remaining: nat, g: Guard) returns (r: HttpResult, n: nat, g': Guard, ghost data: seq<byte>)
    requires o.Valid() && o.phase == Receiving && 0 < remaining && |o.written| + remaining == o.expected
    modifies o, client
    ensures o.Valid() && o.manifest == old(o.manifest)
    ensures r == HttpOk ==> o.phase == Receiving && o.expected == old(o.expected) && 0 < n == |data| <= remaining
    ensures r == HttpOk ==> o.written == old(o.written) + data && client.delivered == old(client.delivered) + data
    ensures r != HttpOk ==> o.phase == Failed
  {
    hide HandlesOk, Verified, SizeValid;
    var got, piece;
    ghost var why, clock;
    got, piece, g', why, clock := GuardedReceive(client, if remaining < HTTP_BUFFER then remaining else HTTP_BUFFER, g);
    data := piece;
    if got <= 0 {
      o.AbortUpdate();
      return Interrupted(got), 0, g', data;
    }
    var env: WriteEnv := *;
    var rc := o.WriteData(piece, env);
    return if rc != Fine then InternalError else HttpOk, got, g', data;
  }

  /** The rest of the image after its first bytes, to the end of the update. What is written is what
      the client delivered. */
  method Stream(o: Service, client: Client, m: Manifest, buffer: seq<byte>, g0: Guard) returns (r: HttpResult)
    requires o.Valid() && o.phase == Receiving && o.manifest == Some(m) && o.written == []
    requires HeaderValid(buffer) && 0 < |buffer| <= m.imageSize
    modifies o, client
    ensures o.Valid() && o.phase != Receiving && o.manifest == Some(m)
    ensures r == HttpOk <==> o.phase == Ready
    ensures r == HttpOk ==> |o.written| == m.imageSize && HeaderValid(o.written) && |o.written| >= |buffer|
                            && o.written[..|buffer|] == buffer
                            && client.delivered == old(client.delivered) + o.written[|buffer|..]
  {
    hide HeaderValid, HandlesOk, Verified;
    var g := g0;
    var env: WriteEnv := *;
    var rc := o.WriteData(buffer, env);
    if rc != Fine { return InternalError; }
    ghost var rest: seq<byte> := [];
    var remaining := m.imageSize - |buffer|;
    while remaining > 0
      invariant o.Valid() && o.phase == Receiving && o.manifest == Some(m)
      invariant o.written == buffer + rest && |o.written| + remaining == m.imageSize == o.expected
      invariant client.delivered == old(client.delivered) + rest
    {
      var n;
      ghost var data;
      r, n, g, data := Forward(o, client, remaining, g);
      if r != HttpOk { return; }
      rest := rest + data;
      remaining := remaining - n;
    }
    HeaderStays(buffer, rest);
    var finishEnv: FinishEnv := *;
    FinishSucceedsExactly(o.View(), o.digest, finishEnv);
    rc := o.FinishUpdate(finishEnv);
    return if rc != Fine then BadRequest else HttpOk;
  }

  /** A lone request never leaves the updater receiving, whatever the client, the flash and the
      hash engine do. It answers OK exactly when it has made the updater ready: then the client has
      delivered a signed manifest header and after it exactly the bytes that are in flash. A request
      during another update changes nothing. */
  method Process(o: Service, client: Client, contentLen: nat) returns (r: HttpResult, ghost header: seq<byte>)
    requires o.Valid()
    modifies o, client
    ensures o.Valid()
    ensures old(o.phase) != Receiving ==> o.phase != Receiving
    ensures old(o.phase) == Receiving ==> r != HttpOk && o.View() == old(o.View())
    ensures r == HttpOk ==>
              && o.phase == Ready && Verified(o.View(), o.digest)
              && client.delivered == old(client.delivered) + header + o.written
              && contentLen == BUNDLE_HEADER + |o.written| && HeaderValid(o.written)
              && |header| == BUNDLE_HEADER && o.signed(header) && o.parse(header) == o.manifest
    ensures r != HttpOk && o.phase == Ready ==> o.View() == old(o.View())
  {
    hide HeaderValid, HandlesOk, Verified, SizeValid;
    header := [];
    if contentLen < BUNDLE_HEADER + IMAGE_HEADER { return BadRequest, header; }
    if contentLen > BUNDLE_HEADER + MAX_IMAGE { return TooLarge, header; }
    var memory: bool := *;
    if !memory { return InternalError, header; }
    var now := client.Now();
    var ok, n, head, g := Gather(client, BUNDLE_HEADER, BUNDLE_HEADER, Guard(now, now, 0, 0));
    if !ok { return Interrupted(n), header; }
    header := head;
    var parsed := o.parse(head);
    if parsed.None? { return BadRequest, header; }
    if !o.signed(head) { return Forbidden, header; }
    var m := parsed.value;
    if contentLen != BUNDLE_HEADER + m.imageSize { return BadRequest, header; }
    // The image is at least as long as its header, so there is always something left to ask for.
    var buffer;
    ok, n, buffer, g := Gather(client, IMAGE_HEADER, if m.imageSize < HTTP_BUFFER then m.imageSize else HTTP_BUFFER, g);
    if !ok { return Interrupted(n), header; }
    if !HeaderValid(buffer) { return BadRequest, header; }
    var env: BeginEnv := *;
    var rc := o.BeginUpdate(m, env);
    if rc != Fine { return if rc == InvalidState then Conflict else BadRequest, header; }
    r := Stream(o, client, m, buffer, g);
    JoinDelivered(old(client.delivered), header, buffer, o.written, client.delivered);
  }

  lemma JoinDelivered(before: seq<byte>, header: seq<byte>, buffer: seq<byte>, written: seq<byte>, delivered: seq<byte>)
    ensures |written| >= |buffer| && written[..|buffer|] == buffer && delivered == before + header + buffer + written[|buffer|..] ==>
              delivered == before + header + written
  {
    if |written| >= |buffer| && written[..|buffer|] == buffer {
      assert before + header + buffer + written[|buffer|..] == before + header + (buffer + written[|buffer|..]);
      assert buffer + written[|buffer|..] == written;
    }
  }

  lemma HeaderStays(image: seq<byte>, data: seq<byte>)
    requires HeaderValid(image)
    ensures HeaderValid(image + data)
  {
    assert (image + data)[12..14] == image[12..14];
  }
}
