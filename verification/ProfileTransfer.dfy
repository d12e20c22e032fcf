/** A controller profile on its way from the main deck to the control board: the sender's frames,
    the transfer receiver, and the frame handler that stores and activates profiles. */
module ProfileTransfer {
  import opened Wrappers
  import opened Words
  import opened Crc
  import opened Memory
  import opened BulkCodec

  const CAP := 16384

  datatype Phase = Idle | Receiving | Stored | Error

  datatype Verdict = Fine | BadSize | BadState | BadOffset | BadCrc | BadProfile

  /** The transfer receiver without its buffer. */
  datatype Rx = Rx(phase: Phase, vid: u16, pid: u16, total: u32, crc: u32, received: u32)

  const RX0 := Rx(Idle, 0, 0, 0, 0, 0)

  function RxBegin(rx: Rx, cap: nat, total: u32, crc: u32, vid: u16, pid: u16): (Rx, Verdict) {
    if total == 0 || total > cap then (rx.(phase := Error), BadSize)
    else (Rx(Receiving, vid, pid, total, crc, 0), Fine)
  }

  predicate ChunkFits(rx: Rx, offset: u32, data: seq<byte>)
    requires |data| <= CHUNK_MAX
  {
    data != [] && offset == rx.received && Add32(offset, |data|) <= rx.total
  }

  function RxChunk(rx: Rx, offset: u32, data: seq<byte>): (Rx, Verdict)
    requires |data| <= CHUNK_MAX
  {
    if rx.phase != Receiving then (rx, BadState)
    else if !ChunkFits(rx, offset, data) then (rx.(phase := Error), BadOffset)
    else (rx.(received := Add32(rx.received, |data|)), Fine)
  }

  function RxEnd(rx: Rx, buf: seq<byte>): (Rx, Verdict) {
    if rx.phase != Receiving then (rx, BadState)
    else if rx.received != rx.total || rx.total > |buf| || Crc32(buf[..rx.total]) != rx.crc then (rx.(phase := Error), BadCrc)
    else (rx.(phase := Stored), Fine)
  }

  /** The header promises that a refusal moves the receiver to ERROR. A refused BEGIN always does; a
      refused chunk or end does exactly if the receiver was receiving or in ERROR already. */
  lemma {:induction false} RefusalMovesToErrorExactly(
      rx: Rx, buf: seq<byte>, cap: nat, offset: u32, data: seq<byte>, total: u32, crc: u32, vid: u16, pid: u16)
    requires |data| <= CHUNK_MAX
    ensures RxBegin(rx, cap, total, crc, vid, pid).1 != Fine ==> RxBegin(rx, cap, total, crc, vid, pid).0.phase == Error
    ensures RxChunk(rx, offset, data).1 != Fine ==>
              (RxChunk(rx, offset, data).0.phase == Error <==> rx.phase == Receiving || rx.phase == Error)
    ensures RxEnd(rx, buf).1 != Fine ==>
              (RxEnd(rx, buf).0.phase == Error <==> rx.phase == Receiving || rx.phase == Error)
  {
    hide Crc32, ChunkFits;
  }

  /** A chunk before any BEGIN, and an end after the transfer is stored, are refused and leave the
      state as it was. */
  lemma RefusedWithoutError(data: seq<byte>)
    requires |data| <= CHUNK_MAX
    ensures RxChunk(RX0, 0, data) == (RX0, BadState) && RX0.phase != Error
    ensures var stored := RX0.(phase := Stored); RxEnd(stored, data) == (stored, BadState) && stored.phase != Error
  {
  }

  // ------------------------------------------------------------------ the frame handler

  datatype Connection = Connection(vid: u16, pid: u16, epoch: u32)

  /** What the surroundings answer during one frame: the connected controller, the memory an
      allocation would get, whether the activation callback accepts the blob. */
  datatype Env = Env(connection: Option<Connection>, memory: Option<seq<byte>>, accepts: bool)

  predicate EnvOk(env: Env) { env.memory.Some? ==> |env.memory.value| == CAP }

  datatype Activation = Profile(blob: seq<byte>, vid: u16, pid: u16, epoch: u32) | Cleared

  datatype Reply = Silent | Acked(kind: byte) | Nacked(kind: byte, reason: Verdict)

  datatype Link = Link(stored: bool, len: nat, vid: u16, pid: u16, epoch: u32, rx: Rx, buf: Option<seq<byte>>)

  const LINK0 := Link(false, 0, 0, 0, 0, RX0, None)

  datatype Effect = Effect(reply: Reply, activation: Option<Activation>)

  function Refuse(kind: byte, reason: Verdict): Effect { Effect(Nacked(kind, reason), None) }

  function Splice(buf: seq<byte>, at: nat, data: seq<byte>): seq<byte>
    requires at + |data| <= |buf|
  {
    buf[..at] + data + buf[at + |data|..]
  }

  /** The buffer is allocated whenever a transfer is under way or stored, and large enough. */
  predicate Sound(h: Link) {
    && (h.buf.Some? ==> |h.buf.value| == CAP)
    && (h.rx.phase == Receiving || h.rx.phase == Stored || h.stored ==> h.buf.Some?)
    && (h.rx.phase == Receiving ==> h.rx.received <= h.rx.total <= CAP)
    && (h.stored ==> h.len <= CAP)
  }

  function OnBegin(h: Link, m: Option<Message>, env: Env): (r: (Link, Effect))
    requires Sound(h) && EnvOk(env) && (m.Some? ==> m.value.Begin?)
    ensures Sound(r.0) && r.1.activation.None?
  {
    if m.None? || env.connection.None? || env.connection.value.vid != m.value.vid || env.connection.value.pid != m.value.pid
    then (h, Refuse(TYPE_BEGIN, BadState))
    else if h.buf.None? && env.memory.None? then (h, Refuse(TYPE_BEGIN, BadSize))
    else
      var buf := if h.buf.Some? then h.buf else env.memory;
      var (rx, verdict) := RxBegin(RX0, CAP, m.value.total, m.value.crc, m.value.vid, m.value.pid);
      var h' := h.(stored := false, buf := buf, rx := rx);
      if verdict == Fine then (h'.(epoch := env.connection.value.epoch), Effect(Acked(TYPE_BEGIN), None))
      else (h', Refuse(TYPE_BEGIN, verdict))
  }

  function OnChunk(h: Link, m: Option<Message>): (r: (Link, Effect))
    requires Sound(h) && (m.Some? ==> m.value.Chunk? && |m.value.data| <= CHUNK_MAX)
    ensures Sound(r.0) && r.1.activation.None?
  {
    if m.None? then (h, Refuse(TYPE_CHUNK, BadOffset))
    else
      var (rx, verdict) := RxChunk(h.rx, m.value.offset, m.value.data);
      if verdict == Fine then
        (h.(rx := rx, buf := Some(Splice(h.buf.value, m.value.offset, m.value.data))), Effect(Silent, None))
      else (h.(rx := rx), Refuse(TYPE_CHUNK, verdict))
  }

  function OnEnd(h: Link): (r: (Link, Effect))
    requires Sound(h)
    ensures Sound(r.0) && r.1.activation.None?
  {
    var (rx, verdict) := RxEnd(h.rx, if h.buf.Some? then h.buf.value else []);
    if verdict == Fine then
      (h.(rx := rx, stored := true, len := rx.total, vid := rx.vid, pid := rx.pid), Effect(Acked(TYPE_END), None))
    else (h.(rx := rx), Refuse(TYPE_END, verdict))
  }

  function OnActivate(h: Link, env: Env): (Link, Effect)
    requires Sound(h)
  {
    if !h.stored then (h, Refuse(TYPE_ACTIVATE, BadState))
    else
      (h, Effect(if env.accepts then Acked(TYPE_ACTIVATE) else Nacked(TYPE_ACTIVATE, BadProfile),
                 Some(Profile(h.buf.value[..h.len], h.vid, h.pid, h.epoch))))
  }

  function OnClear(h: Link): (r: (Link, Effect))
    requires Sound(h)
    ensures Sound(r.0)
  {
    (h.(stored := false, len := 0, epoch := 0, rx := RX0), Effect(Acked(TYPE_CLEAR), Some(Cleared)))
  }

  /** One frame from the parser. */
  function Handle(h: Link, f: seq<byte>, env: Env): (r: (Link, Effect))
    requires Sound(h) && GoodFrame(f) && EnvOk(env)
    ensures Sound(r.0)
  {
    hide Sound, OnBegin, OnChunk, OnEnd;
    if f[1] == TYPE_BEGIN then OnBegin(h, DecodeBegin(f), env)
    else if f[1] == TYPE_CHUNK then OnChunk(h, DecodeChunk(f))
    else if f[1] == TYPE_END then OnEnd(h)
    else if f[1] == TYPE_ACTIVATE then OnActivate(h, env)
    else if f[1] == TYPE_CLEAR then OnClear(h)
    else (h, Effect(Silent, None))
  }

  // ------------------------------------------------------------------ every run

  /** What an observer of frames and replies knows was transferred since the last BEGIN that was
      acknowledged: the announcement, the controller connected at that moment, and the chunks that
      were not refused. */
  datatype Transfer = Transfer(total: u32, crc: u32, vid: u16, pid: u16, connection: Connection, data: seq<byte>)

  function Observe(t: Option<Transfer>, f: seq<byte>, env: Env, reply: Reply): Option<Transfer>
    requires GoodFrame(f)
  {
    if f[1] == TYPE_BEGIN && reply.Acked? then
      match DecodeBegin(f)
      case Some(Begin(total, crc, vid, pid)) =>
        if env.connection.Some? then Some(Transfer(total, crc, vid, pid, env.connection.value, [])) else t
      case _ => t
    else if f[1] == TYPE_CHUNK && reply.Silent? && t.Some? then
      match DecodeChunk(f)
      case Some(Chunk(_, data)) => Some(t.value.(data := t.value.data + data))
      case _ => t
    else t
  }

  /** A blob that arrived whole. */
  predicate Whole(t: Transfer) { |t.data| == t.total && Crc32(t.data) == t.crc }

  /** The announcement named the controller connected at its BEGIN. */
  predicate Named(t: Transfer) { t.connection.vid == t.vid && t.connection.pid == t.pid }

  predicate Follows(rx: Rx, buf: Option<seq<byte>>, t: Option<Transfer>) {
    && t.Some? && buf.Some? && Named(t.value)
    && rx.vid == t.value.vid && rx.pid == t.value.pid && rx.total == t.value.total && rx.crc == t.value.crc
    && rx.received == |t.value.data| <= |buf.value|
    && buf.value[..rx.received] == t.value.data
  }

  predicate Inv(h: Link, t: Option<Transfer>) {
    && Sound(h)
    && (h.rx.phase == Receiving || h.rx.phase == Stored ==> Follows(h.rx, h.buf, t) && h.epoch == t.value.connection.epoch)
    && (h.rx.phase == Stored ==> Whole(t.value))
    && (h.stored ==> h.rx.phase == Stored && h.len == h.rx.total && h.vid == h.rx.vid && h.pid == h.rx.pid)
  }

  lemma ChunkKeeps(h: Link, t: Option<Transfer>, m: Message)
    requires Inv(h, t) && m.Chunk? && |m.data| <= CHUNK_MAX
    ensures var (h', e) := OnChunk(h, Some(m));
            Inv(h', if e.reply.Silent? && t.Some? then Some(t.value.(data := t.value.data + m.data)) else t)
  {
    hide Crc32;
    var (h', e) := OnChunk(h, Some(m));
    if e.reply.Silent? {
      var buf := Splice(h.buf.value, m.offset, m.data);
      assert buf[..m.offset + |m.data|] == h.buf.value[..m.offset] + m.data;
    }
  }

  lemma EndKeeps(h: Link, t: Option<Transfer>)
    requires Inv(h, t)
    ensures Inv(OnEnd(h).0, t)
  {
    hide Crc32;
  }

  lemma BeginKeeps(h: Link, t: Option<Transfer>, m: Option<Message>, env: Env)
    requires Inv(h, t) && EnvOk(env) && (m.Some? ==> m.value.Begin?)
    ensures var (h', e) := OnBegin(h, m, env);
            if e.reply.Acked?
            then m.Some? && env.connection.Some?
                 && Inv(h', Some(Transfer(m.value.total, m.value.crc, m.value.vid, m.value.pid, env.connection.value, [])))
            else Inv(h', t)
  {
    hide Crc32;
  }

  lemma HandleKeeps(h: Link, t: Option<Transfer>, f: seq<byte>, env: Env)
    requires Inv(h, t) && GoodFrame(f) && EnvOk(env)
    ensures var (h', e) := Handle(h, f, env); Inv(h', Observe(t, f, env, e.reply))
  {
    if f[1] == TYPE_BEGIN {
      BeginKeeps(h, t, DecodeBegin(f), env);
    } else if f[1] == TYPE_CHUNK {
      if DecodeChunk(f).Some? { ChunkKeeps(h, t, DecodeChunk(f).value); }
    } else if f[1] == TYPE_END {
      EndKeeps(h, t);
    }
    hide Crc32, Whole, Follows, Named, OnBegin, OnEnd, RxChunk, Splice;
  }

  /** An activation with a profile hands over exactly the observed transfer, which is whole, for the
      controller that was connected at its BEGIN. */
  predicate Matches(a: Option<Activation>, t: Option<Transfer>) {
    a.Some? && a.value.Profile? ==>
      t.Some? && Whole(t.value) && Named(t.value)
      && a.value == Profile(t.value.data, t.value.connection.vid, t.value.connection.pid, t.value.connection.epoch)
  }

  lemma ActivateMatches(h: Link, t: Option<Transfer>, env: Env)
    requires Inv(h, t)
    ensures Matches(OnActivate(h, env).1.activation, t)
  {
  }

  lemma NoProfile(t: Option<Transfer>)
    ensures Matches(None, t) && Matches(Some(Cleared), t)
  {
  }

  /** What is activated as a profile is the whole blob of the last accepted announcement, for the
      controller it was announced for, which was connected then. */
  lemma ActivatesWhatArrived(h: Link, t: Option<Transfer>, f: seq<byte>, env: Env)
    requires Inv(h, t) && GoodFrame(f) && EnvOk(env)
    ensures Matches(Handle(h, f, env).1.activation, t)
  {
    hide Crc32, DecodeBegin, DecodeChunk, OnBegin, OnChunk, OnEnd, OnActivate;
    ActivateMatches(h, t, env);
    hide Matches, Inv, Sound;
    assert Handle(h, f, env).1.activation.None? || Handle(h, f, env).1.activation == Some(Cleared)
        || Handle(h, f, env) == OnActivate(h, env);
    NoProfile(t);
  }

  datatype Input = Input(frame: seq<byte>, env: Env)

  predicate InputsOk(inputs: seq<Input>) {
    forall i :: 0 <= i < |inputs| ==> GoodFrame(inputs[i].frame) && EnvOk(inputs[i].env)
  }

  function Run(h: Link, inputs: seq<Input>): (r: (Link, seq<Effect>))
    requires Sound(h) && InputsOk(inputs)
    ensures Sound(r.0) && |r.1| == |inputs|
    decreases inputs
  {
    if inputs == [] then (h, [])
    else
      var (h1, e) := Handle(h, inputs[0].frame, inputs[0].env);
      var (last, es) := Run(h1, inputs[1..]);
      (last, [e] + es)
  }

  /** The observer's knowledge after a prefix of a run. */
  function Observed(h: Link, t: Option<Transfer>, inputs: seq<Input>, n: nat): Option<Transfer>
    requires Sound(h) && InputsOk(inputs) && n <= |inputs|
    decreases inputs
  {
    if n == 0 then t
    else
      var (h1, e) := Handle(h, inputs[0].frame, inputs[0].env);
      Observed(h1, Observe(t, inputs[0].frame, inputs[0].env, e.reply), inputs[1..], n - 1)
  }

  /** In every run: a stored profile is the whole observed transfer, byte for byte. */
  lemma {:induction false} StoredIsTheTransfer(h: Link, t: Option<Transfer>, inputs: seq<Input>)
    requires Inv(h, t) && InputsOk(inputs)
    ensures var (last, _) := Run(h, inputs);
            var seen := Observed(h, t, inputs, |inputs|);
            Inv(last, seen) &&
            (last.stored ==> seen.Some? && Whole(seen.value) && last.buf.Some? && last.len <= |last.buf.value|
                             && last.buf.value[..last.len] == seen.value.data
                             && Connection(last.vid, last.pid, last.epoch) == seen.value.connection)
    decreases inputs
  {
    if inputs != [] {
      var f, env := inputs[0].frame, inputs[0].env;
      var (h1, e) := Handle(h, f, env);
      HandleKeeps(h, t, f, env);
      StoredIsTheTransfer(h1, Observe(t, f, env, e.reply), inputs[1..]);
    }
    hide Handle, Observe, Crc32, GoodFrame;
  }

  /** In every run: whatever is activated as a profile is the whole transfer observed so far. */
  lemma {:induction false} EveryActivationIsWhole(h: Link, t: Option<Transfer>, inputs: seq<Input>, i: nat)
    requires Inv(h, t) && InputsOk(inputs) && i < |inputs|
    ensures Matches(Run(h, inputs).1[i].activation, Observed(h, t, inputs, i))
    decreases inputs
  {
    hide Handle, Observe, Matches, GoodFrame, Follows, Whole;
    var f, env := inputs[0].frame, inputs[0].env;
    var (h1, e) := Handle(h, f, env);
    if i == 0 {
      ActivatesWhatArrived(h, t, f, env);
    } else {
      HandleKeeps(h, t, f, env);
      EveryActivationIsWhole(h1, Observe(t, f, env, e.reply), inputs[1..], i - 1);
    }
    hide Inv;
  }

  // ------------------------------------------------------------------ when a frame is accepted

  /** The frame is a BEGIN for the connected controller. */
  predicate NamesTheConnected(f: seq<byte>, env: Env)
    requires GoodFrame(f)
  {
    && DecodeBegin(f).Some? && DecodeBegin(f).value.Begin? && env.connection.Some?
    && env.connection.value.vid == DecodeBegin(f).value.vid && env.connection.value.pid == DecodeBegin(f).value.pid
  }

  /** A BEGIN that does not name the connected controller is refused and leaves everything as it was.
      One that does is acknowledged exactly if the size is right and there is memory. */
  lemma BeginAckedExactly(h: Link, f: seq<byte>, env: Env)
    requires Sound(h) && GoodFrame(f) && EnvOk(env) && f[1] == TYPE_BEGIN
    ensures !NamesTheConnected(f, env) ==> Handle(h, f, env) == (h, Effect(Nacked(TYPE_BEGIN, BadState), None))
    ensures Handle(h, f, env).1.reply.Acked? <==>
              NamesTheConnected(f, env) && (h.buf.Some? || env.memory.Some?) && 0 < DecodeBegin(f).value.total <= CAP
  {
    BeginIsBegin(f);
    hide DecodeBegin;
  }

  lemma BeginIsBegin(f: seq<byte>)
    requires GoodFrame(f)
    ensures DecodeBegin(f).Some? ==> DecodeBegin(f).value.Begin?
  {
    hide Crc16, Rd32;
  }

  /** In every run, each acknowledged BEGIN named the controller connected at that moment. */
  lemma {:induction false} EveryBeginNamesTheConnected(h: Link, inputs: seq<Input>, i: nat)
    requires Sound(h) && InputsOk(inputs) && i < |inputs| && inputs[i].frame[1] == TYPE_BEGIN
    ensures Run(h, inputs).1[i].reply.Acked? ==> NamesTheConnected(inputs[i].frame, inputs[i].env)
    decreases inputs
  {
    hide Handle, GoodFrame, NamesTheConnected, Sound;
    if i == 0 {
      BeginAckedExactly(h, inputs[0].frame, inputs[0].env);
    } else {
      EveryBeginNamesTheConnected(Handle(h, inputs[0].frame, inputs[0].env).0, inputs[1..], i - 1);
    }
  }

  /** A chunk is taken exactly if it continues a transfer under way and fits. */
  lemma ChunkTakenExactly(h: Link, t: Option<Transfer>, f: seq<byte>, env: Env)
    requires Inv(h, t) && GoodFrame(f) && EnvOk(env) && f[1] == TYPE_CHUNK
    ensures var m := DecodeChunk(f);
            Handle(h, f, env).1.reply.Silent? <==>
              && h.rx.phase == Receiving && m.Some? && m.value.data != []
              && m.value.offset == |t.value.data| && |t.value.data| + |m.value.data| <= t.value.total
  {
    hide Crc32, DecodeChunk, Splice, Whole, OnChunk;
    ChunkData(f);
    if DecodeChunk(f).Some? {
      OnChunkSilent(h, DecodeChunk(f).value);
    } else {
      OnChunkRefuses(h);
    }
    hide Sound;
  }

  lemma OnChunkRefuses(h: Link)
    requires Sound(h)
    ensures !OnChunk(h, None).1.reply.Silent?
  {
  }

  lemma OnChunkSilent(h: Link, m: Message)
    requires Sound(h) && m.Chunk? && |m.data| <= CHUNK_MAX
    ensures OnChunk(h, Some(m)).1.reply.Silent? <==>
              h.rx.phase == Receiving && m.data != [] && m.offset == h.rx.received && h.rx.received + |m.data| <= h.rx.total
  {
  }

  /** An end is acknowledged, and the profile stored, exactly if the whole announced blob has come. An
      activation reaches the callback exactly if a profile is stored, and is answered by what came of
      it. */
  lemma EndAndActivateExactly(h: Link, t: Option<Transfer>, f: seq<byte>, env: Env)
    requires Inv(h, t) && GoodFrame(f) && EnvOk(env)
    ensures f[1] == TYPE_END ==>
              var (h', e) := Handle(h, f, env);
              && (e.reply == Acked(TYPE_END) <==> h.rx.phase == Receiving && Whole(t.value))
              && (e.reply == Acked(TYPE_END) ==> h'.stored)
    ensures f[1] == TYPE_ACTIVATE ==>
              var (h', e) := Handle(h, f, env);
              && h' == h && (e.activation.Some? <==> h.stored)
              && e.reply == if !h.stored then Nacked(TYPE_ACTIVATE, BadState)
                            else if env.accepts then Acked(TYPE_ACTIVATE) else Nacked(TYPE_ACTIVATE, BadProfile)
  {
    hide Crc32, DecodeChunk, DecodeBegin, OnBegin, OnChunk;
  }

  /** Nothing is stored and nothing is coming. */
  predicate Quiet(h: Link) { !h.stored && h.rx.phase != Receiving }

  /** A clear tells the callback, and forgets both the profile and a transfer under way; so does a
      BEGIN for the connected controller that is refused. */
  lemma ClearIsQuiet(h: Link, f: seq<byte>, env: Env)
    requires Sound(h) && GoodFrame(f) && EnvOk(env)
    ensures f[1] == TYPE_CLEAR ==>
              Quiet(Handle(h, f, env).0) && Handle(h, f, env).1 == Effect(Acked(TYPE_CLEAR), Some(Cleared))
    ensures f[1] == TYPE_BEGIN && NamesTheConnected(f, env) && (h.buf.Some? || env.memory.Some?) ==>
              (Quiet(Handle(h, f, env).0) <==> !Handle(h, f, env).1.reply.Acked?)
  {
    hide DecodeBegin, DecodeChunk;
  }

  lemma QuietStep(h: Link, f: seq<byte>, env: Env)
    requires Sound(h) && Quiet(h) && GoodFrame(f) && EnvOk(env)
    ensures Handle(h, f, env).1.reply != Acked(TYPE_BEGIN) ==> Quiet(Handle(h, f, env).0)
    ensures !(Handle(h, f, env).1.activation.Some? && Handle(h, f, env).1.activation.value.Profile?)
  {
    hide DecodeBegin, DecodeChunk, Crc32, Splice;
  }

  /** From then on no run activates a profile before a BEGIN is acknowledged. */
  lemma {:induction false} QuietUntilBegin(h: Link, inputs: seq<Input>, i: nat)
    requires Sound(h) && Quiet(h) && InputsOk(inputs) && i < |inputs|
    requires forall j :: 0 <= j < i ==> Run(h, inputs).1[j].reply != Acked(TYPE_BEGIN)
    ensures Run(h, inputs).1[i].activation.Some? ==> Run(h, inputs).1[i].activation.value.Cleared?
    decreases inputs
  {
    hide Handle, GoodFrame, Quiet, Sound;
    var h1 := Handle(h, inputs[0].frame, inputs[0].env).0;
    QuietStep(h, inputs[0].frame, inputs[0].env);
    if i > 0 {
      assert Run(h, inputs).1[0].reply != Acked(TYPE_BEGIN);
      forall j | 0 <= j < i - 1 ensures Run(h1, inputs[1..]).1[j].reply != Acked(TYPE_BEGIN) {
        assert Run(h1, inputs[1..]).1[j] == Run(h, inputs).1[j + 1];
      }
      QuietUntilBegin(h1, inputs[1..], i - 1);
    }
  }

  lemma InitialLink()
    ensures Inv(LINK0, None)
  {
  }

  // ------------------------------------------------------------------ the sender

  /** The blob from `off` on, in consecutive chunks of at most 124 bytes. */
  function Chunks(blob: seq<byte>, off: nat): (ms: seq<Message>)
    requires off <= |blob| <= CAP
    ensures AllBuildable(ms)
    ensures forall i :: 0 <= i < |ms| ==> ms[i].Chunk?
    decreases |blob| - off
  {
    if off == |blob| then []
    else
      var n := if |blob| - off > CHUNK_MAX then CHUNK_MAX else |blob| - off;
      [Chunk(off, blob[off..off + n])] + Chunks(blob, off + n)
  }

  function Sent(blob: seq<byte>, vid: u16, pid: u16): (ms: seq<Message>)
    requires |blob| <= CAP
    ensures AllBuildable(ms) && |ms| >= 3
  {
    [Begin(|blob|, Crc32(blob), vid, pid)] + Chunks(blob, 0) + [Simple(TYPE_END), Simple(TYPE_ACTIVATE)]
  }

  function With(frames: seq<seq<byte>>, envs: seq<Env>): (inputs: seq<Input>)
    requires |frames| == |envs|
    ensures |inputs| == |frames|
    decreases frames
  {
    if frames == [] then [] else [Input(frames[0], envs[0])] + With(frames[1..], envs[1..])
  }

  /** The receiver has taken the first `off` bytes of the blob. */
  predicate Taken(h: Link, blob: seq<byte>, off: nat, vid: u16, pid: u16) {
    && Sound(h) && 0 < |blob| <= CAP && off <= |blob|
    && h.rx == Rx(Receiving, vid, pid, |blob|, Crc32(blob), off)
    && h.buf.Some? && h.buf.value[..off] == blob[..off]
  }

  lemma BeginStep(h: Link, blob: seq<byte>, vid: u16, pid: u16, sequence: byte, env: Env)
    requires Sound(h) && EnvOk(env) && 0 < |blob| <= CAP
    requires env.connection.Some? && env.connection.value.vid == vid && env.connection.value.pid == pid
    requires h.buf.Some? || env.memory.Some?
    ensures var f := FrameOf(Begin(|blob|, Crc32(blob), vid, pid), sequence);
            GoodFrame(f) &&
            var (h', e) := Handle(h, f, env);
            Taken(h', blob, 0, vid, pid) && h'.epoch == env.connection.value.epoch && e == Effect(Acked(TYPE_BEGIN), None)
  {
    hide Crc32;
    var m := Begin(|blob|, Crc32(blob), vid, pid);
    FramePayload(m, sequence);
    BeginRoundTrip(m, sequence);
    hide FrameOf, GoodFrame, DecodeBegin, Payload, OnBegin, Taken, Sound;
    BeginTaken(h, blob, vid, pid, env);
  }

  lemma BeginTaken(h: Link, blob: seq<byte>, vid: u16, pid: u16, env: Env)
    requires Sound(h) && EnvOk(env) && 0 < |blob| <= CAP
    requires env.connection.Some? && env.connection.value.vid == vid && env.connection.value.pid == pid
    requires h.buf.Some? || env.memory.Some?
    ensures var (h', e) := OnBegin(h, Some(Begin(|blob|, Crc32(blob), vid, pid)), env);
            Taken(h', blob, 0, vid, pid) && h'.epoch == env.connection.value.epoch && e == Effect(Acked(TYPE_BEGIN), None)
  {
    hide Crc32;
  }

  lemma ChunkTaken(h: Link, blob: seq<byte>, off: nat, n: nat, vid: u16, pid: u16)
    requires Taken(h, blob, off, vid, pid) && 0 < n <= CHUNK_MAX && off + n <= |blob|
    ensures var (h', e) := OnChunk(h, Some(Chunk(off, blob[off..off + n])));
            Taken(h', blob, off + n, vid, pid) && h'.epoch == h.epoch && e == Effect(Silent, None)
  {
    hide Crc32;
    var data := blob[off..off + n];
    var buf := Splice(h.buf.value, off, data);
    assert buf[..off + n] == h.buf.value[..off] + data;
    assert blob[..off + n] == blob[..off] + data;
    hide Splice;
  }

  lemma ChunkStep(h: Link, blob: seq<byte>, off: nat, n: nat, vid: u16, pid: u16, sequence: byte, env: Env)
    requires Taken(h, blob, off, vid, pid) && EnvOk(env) && 0 < n <= CHUNK_MAX && off + n <= |blob|
    ensures var f := FrameOf(Chunk(off, blob[off..off + n]), sequence);
            GoodFrame(f) &&
            var (h', e) := Handle(h, f, env);
            Taken(h', blob, off + n, vid, pid) && h'.epoch == h.epoch && e == Effect(Silent, None)
  {
    hide Crc32, Payload, FrameOf, DecodeChunk, OnChunk;
    var m := Chunk(off, blob[off..off + n]);
    FramePayload(m, sequence);
    ChunkRoundTrip(m, sequence);
    ChunkTaken(h, blob, off, n, vid, pid);
    hide GoodFrame, Taken;
  }

  lemma EndSteps(h: Link, blob: seq<byte>, vid: u16, pid: u16, n1: byte, n2: byte, env1: Env, env2: Env)
    requires Taken(h, blob, |blob|, vid, pid) && EnvOk(env1) && EnvOk(env2)
    ensures var f1, f2 := FrameOf(Simple(TYPE_END), n1), FrameOf(Simple(TYPE_ACTIVATE), n2);
            GoodFrame(f1) && GoodFrame(f2) &&
            var (h1, e1) := Handle(h, f1, env1);
            var (h2, e2) := Handle(h1, f2, env2);
            e1 == Effect(Acked(TYPE_END), None) && e2.activation == Some(Profile(blob, vid, pid, h.epoch))
  {
    hide Crc32;
    FramePayload(Simple(TYPE_END), n1);
    FramePayload(Simple(TYPE_ACTIVATE), n2);
    assert blob[..|blob|] == blob;
    hide FrameOf, GoodFrame, Payload;
  }

  function Next(sequence: byte): byte { if sequence == 255 then 0 else sequence + 1 }

  const CLOSING := [Simple(TYPE_END), Simple(TYPE_ACTIVATE)]

  predicate EnvsOk(envs: seq<Env>) { forall i :: 0 <= i < |envs| ==> EnvOk(envs[i]) }

  lemma WithFirst(m: Message, ms: seq<Message>, sequence: byte, envs: seq<Env>)
    requires AllBuildable([m] + ms) && |ms| + 1 == |envs|
    ensures AllBuildable(ms) && Buildable(m)
    ensures With(Built([m] + ms, sequence), envs)
         == [Input(FrameOf(m, sequence), envs[0])] + With(Built(ms, Next(sequence)), envs[1..])
  {
    hide FrameOf, Buildable;
    var all := [m] + ms;
    assert all[1..] == ms && all[0] == m;
    assert forall i :: 0 <= i < |ms| ==> ms[i] == all[i + 1];
    assert Built(all, sequence)[1..] == Built(ms, Next(sequence));
  }

  lemma {:induction false} InputsAreOk(ms: seq<Message>, sequence: byte, envs: seq<Env>)
    requires AllBuildable(ms) && |ms| == |envs| && EnvsOk(envs)
    ensures InputsOk(With(Built(ms, sequence), envs))
    decreases ms
  {
    hide FrameOf, GoodFrame, Buildable, EnvOk, DecodeLike;
    if ms != [] {
      assert ms == [ms[0]] + ms[1..];
      WithFirst(ms[0], ms[1..], sequence, envs);
      InputsAreOk(ms[1..], Next(sequence), envs[1..]);
      RoundTrip(ms[0], sequence);
      hide Built, With;
    }
  }

  lemma RunCons(h: Link, input: Input, inputs: seq<Input>)
    requires Sound(h) && InputsOk(inputs) && GoodFrame(input.frame) && EnvOk(input.env)
    ensures InputsOk([input] + inputs)
    ensures var (h1, e) := Handle(h, input.frame, input.env);
            Run(h, [input] + inputs).1 == [e] + Run(h1, inputs).1
  {
    hide Handle, GoodFrame, EnvOk;
    assert ([input] + inputs)[1..] == inputs;
  }

  /** One message of a run. */
  lemma RunFirst(h: Link, m: Message, ms: seq<Message>, sequence: byte, envs: seq<Env>)
    requires Sound(h) && AllBuildable([m] + ms) && |ms| + 1 == |envs| && EnvsOk(envs)
    ensures AllBuildable(ms) && Buildable(m)
    ensures InputsOk(With(Built([m] + ms, sequence), envs)) && InputsOk(With(Built(ms, Next(sequence)), envs[1..]))
    ensures GoodFrame(FrameOf(m, sequence))
    ensures var (h1, e) := Handle(h, FrameOf(m, sequence), envs[0]);
            Run(h, With(Built([m] + ms, sequence), envs)).1 == [e] + Run(h1, With(Built(ms, Next(sequence)), envs[1..])).1
  {
    hide FrameOf, GoodFrame, Buildable, EnvOk, Built, With, Handle, Run, DecodeLike, InputsOk, Sound;
    WithFirst(m, ms, sequence, envs);
    InputsAreOk(ms, Next(sequence), envs[1..]);
    RoundTrip(m, sequence);
    RunCons(h, Input(FrameOf(m, sequence), envs[0]), With(Built(ms, Next(sequence)), envs[1..]));
  }

  lemma {:induction false} ChunksAreTaken(h: Link, blob: seq<byte>, off: nat, vid: u16, pid: u16, sequence: byte, envs: seq<Env>)
    requires Taken(h, blob, off, vid, pid) && EnvsOk(envs) && |envs| == |Chunks(blob, off)| + 2
    ensures InputsOk(With(Built(Chunks(blob, off) + CLOSING, sequence), envs))
    ensures var es := Run(h, With(Built(Chunks(blob, off) + CLOSING, sequence), envs)).1;
            && es[|es| - 1].activation == Some(Profile(blob, vid, pid, h.epoch))
            && es[|es| - 2] == Effect(Acked(TYPE_END), None)
            && forall i :: 0 <= i < |es| - 2 ==> es[i] == Effect(Silent, None)
    decreases |blob| - off
  {
    hide Handle, Built, With, FrameOf, GoodFrame, InputsOk, Run, EnvOk, Crc32;
    var ms := Chunks(blob, off) + CLOSING;
    if off == |blob| {
      assert ms == [Simple(TYPE_END)] + [Simple(TYPE_ACTIVATE)];
      RunFirst(h, Simple(TYPE_END), [Simple(TYPE_ACTIVATE)], sequence, envs);
      EndSteps(h, blob, vid, pid, sequence, Next(sequence), envs[0], envs[1]);
      var h1 := Handle(h, FrameOf(Simple(TYPE_END), sequence), envs[0]).0;
      assert [Simple(TYPE_ACTIVATE)] == [Simple(TYPE_ACTIVATE)] + [];
      RunFirst(h1, Simple(TYPE_ACTIVATE), [], Next(sequence), envs[1..]);
      hide Taken, Sound;
    } else {
      var n := if |blob| - off > CHUNK_MAX then CHUNK_MAX else |blob| - off;
      var m := Chunk(off, blob[off..off + n]);
      var rest := Chunks(blob, off + n) + CLOSING;
      assert ms == [m] + rest;
      RunFirst(h, m, rest, sequence, envs);
      ChunkStep(h, blob, off, n, vid, pid, sequence, envs[0]);
      var h1 := Handle(h, FrameOf(m, sequence), envs[0]).0;
      ChunksAreTaken(h1, blob, off + n, vid, pid, Next(sequence), envs[1..]);
      hide Taken, Sound;
    }
  }

  /** A blob the sender streams over a clean line, to a receiver in any state with the announced
      controller connected, is handed to activation unchanged: through the builders, the byte
      stream, the parser, the decoders and the handler. */
  lemma {:induction false} BlobArrives(h: Link, blob: seq<byte>, vid: u16, pid: u16, sequence: byte, envs: seq<Env>)
    requires Sound(h) && 0 < |blob| <= CAP && EnvsOk(envs) && |envs| == |Sent(blob, vid, pid)|
    requires envs[0].connection.Some? && envs[0].connection.value.vid == vid && envs[0].connection.value.pid == pid
    requires h.buf.Some? || envs[0].memory.Some?
    ensures var wire := Stream(Built(Sent(blob, vid, pid), sequence));
            var frames := Completed(FeedAll(IDLE, wire).1);
            && |frames| == |envs| && InputsOk(With(frames, envs))
            && var es := Run(h, With(frames, envs)).1;
               es[|es| - 1].activation == Some(Profile(blob, vid, pid, envs[0].connection.value.epoch))
  {
    hide Handle, Built, With, FrameOf, GoodFrame, InputsOk, Run, FeedAll, Completed, Crc32, DecodeLike, Carried, Stream, Deliveries, EnvOk;
    var ms := Sent(blob, vid, pid);
    BuiltStreamIsReceived(ms, sequence);
    var m := Begin(|blob|, Crc32(blob), vid, pid);
    var rest := Chunks(blob, 0) + CLOSING;
    assert ms == [m] + rest;
    RunFirst(h, m, rest, sequence, envs);
    BeginStep(h, blob, vid, pid, sequence, envs[0]);
    ChunksAreTaken(Handle(h, FrameOf(m, sequence), envs[0]).0, blob, 0, vid, pid, Next(sequence), envs[1..]);
  }

  lemma {:induction false} WithIsOk(frames: seq<seq<byte>>, envs: seq<Env>)
    requires |frames| == |envs| && EnvsOk(envs) && forall i :: 0 <= i < |frames| ==> GoodFrame(frames[i])
    ensures InputsOk(With(frames, envs))
    decreases frames
  {
    hide GoodFrame, EnvOk;
    if frames != [] { WithIsOk(frames[1..], envs[1..]); }
  }

  /** From the first boot on, whatever bytes the line delivers and whatever the surroundings answer:
      every profile that is activated is a whole transfer, and so is every stored one. */
  lemma {:induction false} AnyByteStreamIsSafe(wire: seq<byte>, envs: seq<Env>)
    requires EnvsOk(envs) && |envs| == |Completed(FeedAll(IDLE, wire).1)|
    ensures var inputs := With(Completed(FeedAll(IDLE, wire).1), envs);
            && InputsOk(inputs)
            && Inv(Run(LINK0, inputs).0, Observed(LINK0, None, inputs, |inputs|))
            && forall i :: 0 <= i < |inputs| ==> Matches(Run(LINK0, inputs).1[i].activation, Observed(LINK0, None, inputs, i))
  {
    var frames := Completed(FeedAll(IDLE, wire).1);
    CompletedAreGood(IDLE, wire);
    WithIsOk(frames, envs);
    InitialLink();
    hide FeedAll, Completed, GoodFrame, With, InputsOk, Inv, Matches, Run, Observed, EnvsOk;
    var inputs := With(frames, envs);
    StoredIsTheTransfer(LINK0, None, inputs);
    forall i | 0 <= i < |inputs| ensures Matches(Run(LINK0, inputs).1[i].activation, Observed(LINK0, None, inputs, i)) {
      EveryActivationIsWhole(LINK0, None, inputs, i);
    }
  }

  // ------------------------------------------------------------------ the code that updates in place

  class ProfileLink {
    var buf: array?<byte>
    var stored: bool
    var len: nat
    var vid: u16
    var pid: u16
    var epoch: u32
    var rx: Rx

    ghost function View(): Link
      reads this, if buf == null then {} else {buf}
    {
      Link(stored, len, vid, pid, epoch, rx, if buf == null then None else Some(buf[..]))
    }

    ghost predicate Valid()
      reads this, if buf == null then {} else {buf}
    {
      Sound(View())
    }

    constructor ()
      ensures Valid() && View() == LINK0 && buf == null
    {
      buf, stored, len, vid, pid, epoch, rx := null, false, 0, 0, 0, 0, RX0;
    }

    /** The transfer receiver's step for one chunk, copied into place. */
    method TakeChunk(offset: u32, data: seq<byte>) returns (verdict: Verdict)
      requires Valid() && |data| <= CHUNK_MAX
      modifies this`rx, if buf == null then {} else {buf}
      ensures Valid()
      ensures View() == OnChunk(old(View()), Some(Chunk(offset, data))).0
      ensures verdict == RxChunk(old(rx), offset, data).1
    {
      if rx.phase != Receiving { return BadState; }
      if !ChunkFits(rx, offset, data) {
        rx := rx.(phase := Error);
        return BadOffset;
      }
      ghost var was := buf[..];
      Copy(buf, offset, data);
      assert buf[..] == Splice(was, offset, data);
      rx := rx.(received := Add32(rx.received, |data|));
      return Fine;
    }

    method FinishTransfer() returns (verdict: Verdict)
      requires Valid()
      modifies this`rx
      ensures Valid()
      ensures (rx, verdict) == RxEnd(old(rx), if buf == null then [] else buf[..])
    {
      hide Update32;
      if rx.phase != Receiving { return BadState; }
      var data := buf[..rx.total];
      assert data == buf[..][..rx.total];
      var c := Crc32Update(0xFFFF_FFFF, data);
      if rx.received != rx.total || Finish(c) != rx.crc {
        rx := rx.(phase := Error);
        return BadCrc;
      }
      rx := rx.(phase := Stored);
      return Fine;
    }

    method BeginFrame(f: seq<byte>, env: Env) returns (e: Effect)
      requires Valid() && EnvOk(env)
      modifies this
      ensures Valid() && (View(), e) == OnBegin(old(View()), DecodeBegin(f), env)
      ensures buf == old(buf) || fresh(buf)
    {
      var m := DecodeBegin(f);
      if m.None? || env.connection.None? || env.connection.value.vid != m.value.vid || env.connection.value.pid != m.value.pid {
        return Refuse(TYPE_BEGIN, BadState);
      }
      if buf == null {
        if env.memory.None? { return Refuse(TYPE_BEGIN, BadSize); }
        var memory := env.memory.value;
        buf := new byte[CAP](i requires 0 <= i < CAP => memory[i]);
        assert buf[..] == memory;
      }
      stored := false;
      var (rx', verdict) := RxBegin(RX0, CAP, m.value.total, m.value.crc, m.value.vid, m.value.pid);
      rx := rx';
      if verdict != Fine { return Refuse(TYPE_BEGIN, verdict); }
      epoch := env.connection.value.epoch;
      return Effect(Acked(TYPE_BEGIN), None);
    }

    method EndFrame() returns (e: Effect)
      requires Valid()
      modifies this
      ensures Valid() && (View(), e) == OnEnd(old(View())) && buf == old(buf)
    {
      hide Crc32;
      var verdict := FinishTransfer();
      if verdict != Fine { return Refuse(TYPE_END, verdict); }
      stored, len, vid, pid := true, rx.total, rx.vid, rx.pid;
      return Effect(Acked(TYPE_END), None);
    }

    /** The frame handler does in place what Handle does on values. */
    method HandleFrame(f: seq<byte>, env: Env) returns (e: Effect)
      requires Valid() && GoodFrame(f) && EnvOk(env)
      modifies this, if buf == null then {} else {buf}
      ensures Valid() && (View(), e) == Handle(old(View()), f, env)
      ensures buf == old(buf) || fresh(buf)
    {
      hide DecodeBegin, DecodeChunk, OnBegin, OnEnd, RxChunk, Splice, Crc16, Crc32;
      if f[1] == TYPE_BEGIN {
        e := BeginFrame(f, env);
      } else if f[1] == TYPE_CHUNK {
        var m := DecodeChunk(f);
        if m.None? { return Refuse(TYPE_CHUNK, BadOffset); }
        ChunkData(f);
        var verdict := TakeChunk(m.value.offset, m.value.data);
        e := if verdict == Fine then Effect(Silent, None) else Refuse(TYPE_CHUNK, verdict);
      } else if f[1] == TYPE_END {
        e := EndFrame();
      } else if f[1] == TYPE_ACTIVATE {
        if !stored { return Refuse(TYPE_ACTIVATE, BadState); }
        assert buf[..len] == buf[..][..len];
        e := Effect(if env.accepts then Acked(TYPE_ACTIVATE) else Nacked(TYPE_ACTIVATE, BadProfile),
                    Some(Profile(buf[..len], vid, pid, epoch)));
      } else if f[1] == TYPE_CLEAR {
        stored, len, epoch, rx := false, 0, 0, RX0;
        e := Effect(Acked(TYPE_CLEAR), Some(Cleared));
      } else {
        e := Effect(Silent, None);
      }
    }
  }

  lemma ChunkData(f: seq<byte>)
    requires GoodFrame(f)
    ensures DecodeChunk(f).Some? ==> DecodeChunk(f).value.Chunk? && |DecodeChunk(f).value.data| <= CHUNK_MAX
  {
    hide Crc16, Rd32;
  }
}
