# Verified models of the deck and control-board firmware

This project models the parts of a two-board DJ deck whose correctness does not show on inspection:
hand-written concurrent stores, stream parsers and ownership protocols of the main deck (ESP32-P4)
and the control board (ESP32-S3), and the controller-profile compiler. Every statement is a theorem
about all inputs, all runs or all interleavings of the model. Nothing was executed.

`dafny verify dfyconfig.toml` checks everything.

| module | system part |
|---|---|
| `PcmTimeline`, `TimelineInterleaving` | per-deck store of decoded audio: the store as a class that refines a log of frames, and the same code access by access with decoder and output task interleaved |
| `AudioLink`, `AudioLinkReceiver` | the block stream from main deck to control board: a one-pass reference scan, and the buffered receiver that equals it for every cutting of the stream |
| `Recorder`, `RecorderRing` | the master recorder with its stop barrier, one shared access per step |
| `CompressedCache` | the page cache of a compressed track and the stream over it |
| `BulkCodec`, `ProfileTransfer` | bulk frames on the control link, and the transfer of controller profiles over them |
| `MidiOut` | MIDI OUT producers against the task that opens, drains and tears down the USB device |
| `DeckAdmission` | deck loads, stops, session generations and suspension under the admission and deck locks |
| `Ota` | the update state machine and the HTTP request that drives it |
| `RoundRobin`, `EventScheduler`, `LedReconciler`, `HeldStates` | delivery of control events, LEDs and held controls |
| `ControllerProfile`, `ControllerTables` | the profile compiler, the parser that reads its bytes, and what the compiled tables say |
| `Pacing` | resampler and USB packet pacing |
| `Words`, `Crc`, `Wrappers`, `Audio`, `Memory` | machine words, checksums, optional values, stereo frames, copies into buffers |

## How it is modelled

- State machines are functions of a state and an action; a run is a list of actions; an invariant is
  kept by every step, and the main results follow for every run. Code that updates memory in place is
  a class whose methods are proved against functions on values.
- Interleavings are sequentially consistent. The timeline, the recorder, MIDI OUT and deck admission
  take one shared access, lock operation or queue operation per step.
- Files, flash, USB, the network, clocks, allocation and callbacks answer anything their interfaces
  allow, at every call.
- 32-bit and 64-bit words wrap as in the code wherever a cursor, a sequence number, a generation or
  an accumulator can reach the end of its range.

## Promises that do not hold as stated

Each has a concrete run or table and the exact condition under which the promise does hold.

- Warming for the next read (`WarmingCanEvictItsOwnPage`, `WarmedExactly`): a prefetch that hits does
  not refresh the page, so the second prefetch can evict it. Less than one read before the end of the
  file the second prefetch is refused, and the last page of the next read is never fetched
  (`WarmingMissesTheTail`, with the exact condition in `Cache.Warm`).
- Recorder ring (`SlotsDistinctIffDivides`): the remainder by the capacity is not continuous at the
  32-bit wrap unless the capacity divides 2^32. The shipped ring has 508 slots.
- Recorder start (`ProducerCanBeStranded`, `RingLostExactly`): when the writer task cannot be created
  the ring is freed without waiting for a producer inside the gate.
- MIDI OUT (`PacketsCanBeSkipped`, `EveryRunIsSafe`): if the transfer cannot be freed after a
  NO_DEVICE completion and the device has not yet been seen to go, its payload is given up and later
  packets can still complete.
- Held controls (`OvertakenMomentExists`, `CleanMeansSent`): between sending a value and marking it,
  a control that returned to its former value is clean although another value was sent last. The mark
  repairs this.
- USB packets (`NoDriftExactly`): a packet's frame count has 16 bits, so the pacing is exact up to a
  rate of 65 535 000 and at no higher one.
- Session generations (`StopActsOnItsSession`): a stop with an old generation acts again after every
  2^32 - 1 loads and stops of its deck.
- Transfer receiver (`RefusedWithoutError`, `RefusalMovesToErrorExactly`): its header says that any
  refusal moves it to the error state
  (firmware/control-board-s3/components/control_link/include/control_link.h:406-410); the code leaves
  the state alone when a chunk or an end arrives in the wrong state. The model follows the code.

## Model

| member | source | states |
|---|---|---|
| `PcmTimeline.RunKeepsOrder` | firmware/main-deck-p4/components/audio_engine/audio_pcm_timeline.c:74-243 | every run of push, pop, seek and drop keeps oldest <= play <= write and a span of at most one capacity |
| `PcmTimeline.RunPlaysTheLog` | firmware/main-deck-p4/components/audio_engine/audio_pcm_timeline.c:74-146 | over every run without a seek, what playback hands out is exactly the log between the two playheads, and frames already played survive every drop and re-push |
| `PcmTimeline.StoreStands` | firmware/main-deck-p4/components/audio_engine/audio_pcm_timeline.c:19-28 | the epoch and low word written for an absolute position hold it |
| `PcmTimeline.NextStands` | firmware/main-deck-p4/components/audio_engine/audio_pcm_timeline.c:30-42 | advancing by one is right on both sides of the low word wrap, and across 2^64 |
| `PcmTimeline.StorePush` | firmware/main-deck-p4/components/audio_engine/audio_pcm_timeline.c:74-97 | writing the next slot keeps every retained frame in its slot |
| `PcmTimeline.ReadAgrees` | firmware/main-deck-p4/components/audio_engine/audio_pcm_timeline.c:99-126 | the physical index computed from the playhead by signed distance is the slot of the sequence number asked for |
| `PcmTimeline.SeekAgrees` | firmware/main-deck-p4/components/audio_engine/audio_pcm_timeline.c:148-163 | repositioning leaves the play cursor and its physical index standing at the same position |
| `PcmTimeline.RewindAgrees` | firmware/main-deck-p4/components/audio_engine/audio_pcm_timeline.c:224-243 | taking back frames leaves the write cursor and its physical index standing at the same position |
| `PcmTimeline.Timeline.constructor` | firmware/main-deck-p4/components/audio_engine/audio_pcm_timeline.c:44-54 | a fresh timeline is the empty log; a store of 2^31 frames or more gets capacity zero |
| `PcmTimeline.Timeline.Reset` | firmware/main-deck-p4/components/audio_engine/audio_pcm_timeline.c:56-72 | the empty log again, under a new generation that is never zero |
| `PcmTimeline.Timeline.HistoryFrames` | firmware/main-deck-p4/components/audio_engine/audio_pcm_timeline.c:195-201 | the 32-bit distance is the true number of played frames still held |
| `PcmTimeline.Timeline.FutureFrames` | firmware/main-deck-p4/components/audio_engine/audio_pcm_timeline.c:203-209 | the 32-bit distance is the true number of frames ahead |
| `PcmTimeline.Timeline.UsedFrames` | firmware/main-deck-p4/components/audio_engine/audio_pcm_timeline.c:211-217 | the 32-bit distance is the true number of frames held |
| `PcmTimeline.Timeline.Push` | firmware/main-deck-p4/components/audio_engine/audio_pcm_timeline.c:74-97 | appends to the log, evicting the oldest frame when full; refuses exactly when full with no history |
| `PcmTimeline.Timeline.Read` | firmware/main-deck-p4/components/audio_engine/audio_pcm_timeline.c:99-126 | returns exactly the logged frame of a retained number, and nothing for any other |
| `PcmTimeline.Timeline.Pop` | firmware/main-deck-p4/components/audio_engine/audio_pcm_timeline.c:128-146 | hands out the frame at the playhead and moves it by one |
| `PcmTimeline.Timeline.SetPlayhead` | firmware/main-deck-p4/components/audio_engine/audio_pcm_timeline.c:148-163 | moves to any retained position and to no other |
| `PcmTimeline.Timeline.SetPlayheadFramesBack` | firmware/main-deck-p4/components/audio_engine/audio_pcm_timeline.c:165-175 | moves back within the retained history and no further |
| `PcmTimeline.Timeline.DropNewest` | firmware/main-deck-p4/components/audio_engine/audio_pcm_timeline.c:224-243 | takes back at most the frames not yet played, and reports how many |
| `TimelineInterleaving.AdvanceOk` | firmware/main-deck-p4/components/audio_engine/audio_pcm_timeline.c:30-42 | each single store of an advancing cursor leaves the register in a state a reader can tell apart |
| `TimelineInterleaving.LoadIsHonest` | firmware/main-deck-p4/components/audio_engine/audio_pcm_timeline.c:3-17 | a load that returns gives a position the cursor held while the load ran |
| `TimelineInterleaving.EveryLoadIsHonest` | firmware/main-deck-p4/components/audio_engine/audio_pcm_timeline.c:3-17 | the same for every load in every interleaved run |
| `TimelineInterleaving.BeginKeeps` | firmware/main-deck-p4/components/audio_engine/audio_pcm_timeline.c:74-86 | a push refuses exactly when the store is full with no history and begins to evict exactly when it is full with some, also while the consumer moves |
| `TimelineInterleaving.StepKeeps` | firmware/main-deck-p4/components/audio_engine/audio_pcm_timeline.c:74-146 | every access of either task keeps the invariant that ties registers, indices, memory and log |
| `TimelineInterleaving.EveryRunIsExact` | firmware/main-deck-p4/components/audio_engine/audio_pcm_timeline.c:3-146 | in every interleaving the cursors stay ordered within one capacity, a pop that returns a frame returns the one pushed at its number, and a read that succeeds returns the frame asked for: never torn, never overwritten |
| `TimelineInterleaving.EveryRunDeliversTheLog` | firmware/main-deck-p4/components/audio_engine/audio_pcm_timeline.c:74-146 | in every interleaving without a seek the popped frames are the log in order, none lost or repeated |
| `TimelineInterleaving.EveryRefusalIsDue` | firmware/main-deck-p4/components/audio_engine/audio_pcm_timeline.c:74-146 | in every interleaving: a frame of history goes only when the store is full and playback is past it; a push is refused exactly when the store is full with no history; a pop comes back empty exactly when nothing is ahead; a read fails only for a frame that is gone, or at or above a write position held since the read asked |
| `TimelineInterleaving.EveryRunLogsThePushes` | firmware/main-deck-p4/components/audio_engine/audio_pcm_timeline.c:74-97 | in every interleaving in which nothing is withdrawn the log grows by exactly the frames of the pushes that were not refused, in order |
| `TimelineInterleaving.EveryAccessAdvances` | firmware/main-deck-p4/components/audio_engine/audio_pcm_timeline.c:3-146 | no call hangs: each access of a push or a pop leaves less to do, each access of a read too unless a store of the cursor it loads ran meanwhile; a call ends with an answer |
| `Crc.UpdateConcat` | firmware/control-board-s3/components/p4_audio_link/p4_audio_link.c:47-71 | a checksum over two runs is the checksum over their concatenation |
| `Crc.Crc32Update` | firmware/control-board-s3/components/control_link/cp_xfer.c:11-21 | the byte and bit loops compute the CRC-32 register |
| `Crc.Crc32OfPair` | firmware/control-board-s3/components/p4_audio_link/p4_audio_link.c:59-71 | the block checksum taken over header and payload apart |
| `Crc.BulkCrc16` | firmware/control-board-s3/components/control_link/ctrl_bulk.c:12-26 | the byte and bit loops compute the CRC-16 |
| `Crc.OneByteIsSeen32` | firmware/control-board-s3/components/control_link/cp_xfer.c:11-21 | whatever surrounds it, one byte changed in any way changes the CRC-32 |
| `Crc.OneByteIsSeen16` | firmware/control-board-s3/components/control_link/ctrl_bulk.c:12-26 | whatever surrounds it, one byte changed in any way changes the CRC-16 |
| `Crc.CheckValue32` | firmware/control-board-s3/components/control_link/cp_xfer.c:11-21 | the digits 1 to 9 have the published check value of CRC-32, which settles polynomial, initial value and inversions |
| `Crc.CheckValue16` | firmware/control-board-s3/components/control_link/ctrl_bulk.c:12-26 | the digits 1 to 9 have the published check value of the CCITT CRC-16 that starts from all ones |
| `AudioLink.ScanWaits` | firmware/control-board-s3/components/p4_audio_link/p4_audio_link.c:234-274 | whatever arrived, what is held back is undecided and shorter than the buffer: the full-buffer guard is unreachable |
| `AudioLink.ScanConcat` | firmware/control-board-s3/components/p4_audio_link/p4_audio_link.c:234-293 | scanning in two pieces is scanning once |
| `AudioLink.ChunkingIsIrrelevant` | firmware/control-board-s3/components/p4_audio_link/p4_audio_link.c:276-293 | for every stream and every way of cutting it, the same blocks in the same order with the same counters as one pass |
| `AudioLink.ScanAccountsForStream` | firmware/control-board-s3/components/p4_audio_link/p4_audio_link.c:234-274 | only blocks with a right header and checksum are taken, in order, without overlap, and every byte is taken, passed over or held |
| `AudioLink.PayloadRoundTrip` | firmware/main-deck-p4/components/monitor_pcm_link/monitor_pcm_link.c:120-186 | stereo samples survive being written and read as little-endian words |
| `AudioLink.BuiltIsGood` | firmware/main-deck-p4/components/monitor_pcm_link/monitor_pcm_link.c:120-186 | a built block is accepted and gives back its fields and frames |
| `AudioLink.WireIsReceived` | firmware/main-deck-p4/components/monitor_pcm_link/monitor_pcm_link.c:120-186 | blocks with any idle filler between them are received block for block |
| `AudioLink.AcceptedCounts` | firmware/control-board-s3/components/p4_audio_link/p4_audio_link.c:102-146 | a clean line adds no checksum error, one received block per block, and exactly one gap per break of the sequence, in 32 bits |
| `AudioLink.EverythingIsCounted` | firmware/control-board-s3/components/p4_audio_link/p4_audio_link.c:102-146 | over any stream, in 32 bits: one checksum error per complete block with a wrong checksum, one received block per block taken, one gap per break of the sequence between blocks taken |
| `AudioLink.LinkDelivers` | firmware/control-board-s3/components/p4_audio_link/p4_audio_link.c:212-293 | end to end, for every cutting of the wire bytes: exactly the blocks sent, frames intact, exactly the gaps sent |
| `AudioLinkReceiver.IndexAcrossWrap` | firmware/control-board-s3/components/p4_audio_link/p4_audio_link.c:73-87 | the ring index of a free-running 32-bit counter stays right across its wrap |
| `AudioLinkReceiver.FrameRing.PushFrame` | firmware/control-board-s3/components/p4_audio_link/p4_audio_link.c:73-87 | the queue grows by the frame, or the frame is dropped and counted when the ring is full |
| `AudioLinkReceiver.FrameRing.ReadFrames` | firmware/control-board-s3/components/p4_audio_link/p4_audio_link.c:158-192 | the oldest frames leave in order, the rest of the destination is silence, an underrun is counted |
| `AudioLinkReceiver.ScanSkips` | firmware/control-board-s3/components/p4_audio_link/p4_audio_link.c:222-245 | jumping to the next magic loses nothing the one-pass scan would find |
| `AudioLinkReceiver.ScanKeepsThree` | firmware/control-board-s3/components/p4_audio_link/p4_audio_link.c:234-245 | without a magic, keeping the last three bytes is enough |
| `AudioLinkReceiver.Receiver.Consume` | firmware/control-board-s3/components/p4_audio_link/p4_audio_link.c:212-220 | the first bytes leave the buffer, the others move to its front |
| `AudioLinkReceiver.Receiver.FindMagic` | firmware/control-board-s3/components/p4_audio_link/p4_audio_link.c:222-232 | the first magic, or none exactly when there is none |
| `AudioLinkReceiver.Receiver.ReceiveBlock` | firmware/control-board-s3/components/p4_audio_link/p4_audio_link.c:102-146 | accepts exactly the blocks with a right header, length and checksum, counts the others, and queues their frames |
| `AudioLinkReceiver.Receiver.Process` | firmware/control-board-s3/components/p4_audio_link/p4_audio_link.c:234-274 | the nested loops on the buffer compute the one-pass scan, put exactly the frames of the newly accepted blocks into the ring, and terminate |
| `AudioLinkReceiver.Receiver.FeedBytes` | firmware/control-board-s3/components/p4_audio_link/p4_audio_link.c:276-293 | feeding any bytes is scanning what was held plus these bytes, with exactly the frames of the newly accepted blocks in the ring; the loop always advances |
| `Recorder.SlotsDistinctIffDivides` | firmware/main-deck-p4/components/audio_recorder/audio_recorder_ring.c:21-66 | indexing by the remainder keeps live blocks apart across the 32-bit wrap exactly when the capacity divides 2^32 |
| `Recorder.StepKeeps` | firmware/main-deck-p4/components/audio_recorder/audio_recorder.c:143-507 | every access of producer, writer and controlling task keeps the session invariant, also when memory, the gate or the writer task is not to be had |
| `Recorder.StopBarrierHolds` | firmware/main-deck-p4/components/audio_recorder/audio_recorder.c:422-507 | in every interleaving of every number of sessions with failing writes: a published file holds exactly the accepted blocks, a faulted session is never published, a clean writer exit leaves nothing unwritten and nobody admitted; an admitted producer has a ring exactly until a failed task creation frees it under the producer |
| `Recorder.NothingAcceptedAfterCleanExit` | firmware/main-deck-p4/components/audio_recorder/audio_recorder.c:422-507 | no run from a clean writer exit to the next session's ring accepts a block |
| `Recorder.FinishPublishesExactly` | firmware/main-deck-p4/components/audio_recorder/audio_recorder.c:451-460 | a stop that gets to its end publishes exactly the accepted blocks if and only if the session had no fault and finalising succeeds |
| `Recorder.CleanStopPublishes` | firmware/main-deck-p4/components/audio_recorder/audio_recorder.c:422-460 | in every run in which the card refuses no write and no checkpoint, a stop whose finalising succeeds publishes every block accepted in the session |
| `Recorder.EveryPushIsFair` | firmware/main-deck-p4/components/audio_recorder/audio_recorder.c:484-507 | in every run a push that meets RECORDING carries its block until it joins the accepted ones, cut to a slot, or is turned away: at the gate only if the gate was closed at that look, inside only if the ring was full at its look; nothing else changes what was accepted but the next ring |
| `Recorder.EveryRunAcceptsWhatFinds` | firmware/main-deck-p4/components/audio_recorder/audio_recorder_ring.c:21-53 | over any part of a session the accepted blocks grow by exactly those that found room, in order |
| `Recorder.PushGetsThere` | firmware/main-deck-p4/components/audio_recorder/audio_recorder.c:484-507 | every access of an admitted or leaving producer leaves less of its push to do |
| `Recorder.StopGetsThere` | firmware/main-deck-p4/components/audio_recorder/audio_recorder.c:422-465 | every access of a stop leaves less of it, but for the waits for a producer that is inside and for the writer; in the second every access of the writer brings it nearer to its exit |
| `Recorder.WriterDrains` | firmware/main-deck-p4/components/audio_recorder/audio_recorder.c:143-251 | while a block waits every access of the writer brings it nearer to consuming that block, and what is written is a prefix of what was accepted; or the card refuses and the session is faulted |
| `Recorder.RingLostExactly` | firmware/main-deck-p4/components/audio_recorder/audio_recorder.c:399-410 | in every run an admitted producer has a ring at every point, exactly if no failed creation frees the ring with the gate not empty and the producer past its second look |
| `Recorder.NobodyEntersAfterClose` | firmware/main-deck-p4/components/audio_recorder/audio_recorder.c:399-410 | a producer not inside when the failed start closes the gate never gets inside before the free |
| `Recorder.ProducerCanBeStranded` | firmware/main-deck-p4/components/audio_recorder/audio_recorder.c:397-410 | a run in which the failed creation frees the ring under a producer |
| `Recorder.ProducerCanBeInsideAtCreate` | firmware/main-deck-p4/components/audio_recorder/audio_recorder.c:397-410 | a run in which a producer is inside at that point |
| `RecorderRing.PushStores` | firmware/main-deck-p4/components/audio_recorder/audio_recorder_ring.c:21-53 | storing the next block keeps every unread block in its slot |
| `RecorderRing.Ring.Push` | firmware/main-deck-p4/components/audio_recorder/audio_recorder_ring.c:21-53 | joins the end of the log, cut to a slot; refused and counted exactly when full; the ring stays a queue while the index is continuous: below 2^32 blocks, and for ever if the capacity divides 2^32 |
| `RecorderRing.Ring.Peek` | firmware/main-deck-p4/components/audio_recorder/audio_recorder_ring.c:55-66 | the oldest unread block, or nothing exactly when there is none |
| `RecorderRing.Ring.Consume` | firmware/main-deck-p4/components/audio_recorder/audio_recorder_ring.c:68-79 | the oldest unread block leaves |
| `RecorderRing.Ring.Used` | firmware/main-deck-p4/components/audio_recorder/audio_recorder_ring.c:81-89 | the 32-bit distance is the true number of unread blocks |
| `CompressedCache.SpanHasTwoPages` | firmware/main-deck-p4/components/audio_engine/audio_engine.c:1651-1655 | a span no longer than a page touches only the pages of its two ends |
| `CompressedCache.PagesOfSpan` | firmware/main-deck-p4/components/audio_engine/audio_compressed_cache.c:128-152 | the pages a read uses are exactly the pages of the bytes it delivers, ascending |
| `CompressedCache.UseKeeps` | firmware/main-deck-p4/components/audio_engine/audio_compressed_cache.c:46-84 | touching or loading a page keeps offsets distinct and every stamp equal to the time of the page's last use |
| `CompressedCache.StampsDistinct` | firmware/main-deck-p4/components/audio_engine/audio_compressed_cache.c:78-81 | no two valid pages share a stamp |
| `CompressedCache.VictimIsLeastRecent` | firmware/main-deck-p4/components/audio_engine/audio_compressed_cache.c:31-44 | eviction takes an empty slot, else the page whose last use is strictly the oldest |
| `CompressedCache.WarmedExactly` | firmware/main-deck-p4/components/audio_engine/audio_engine.c:1656-1664 | after two successful prefetches the first page is cached exactly unless it was a hit on the oldest page of a full cache and the second one missed |
| `CompressedCache.PrefetchKeepsOther` | firmware/main-deck-p4/components/audio_engine/audio_compressed_cache.c:155-162 | a successful prefetch keeps another page cached exactly unless it had to load and the other page was next to go |
| `CompressedCache.WarmingMissesTheTail` | firmware/main-deck-p4/components/audio_engine/audio_engine.c:1644-1664 | a file and a start near its end for which warming never fetches the last page of the next read |
| `CompressedCache.WarmingCanEvictItsOwnPage` | firmware/main-deck-p4/components/audio_engine/audio_engine.c:1644-1664 | a table in which warming evicts the page it has just found |
| `CompressedCache.StoreKeeps` | firmware/main-deck-p4/components/audio_engine/audio_compressed_cache.c:5-9 | overwriting one slot leaves the bytes of all other pages alone |
| `CompressedCache.Init` | firmware/main-deck-p4/components/audio_engine/audio_compressed_cache.c:86-111 | refuses exactly an empty file, a zero page size, and storage for no page or more than eight |
| `CompressedCache.Cache.FindPage` | firmware/main-deck-p4/components/audio_engine/audio_compressed_cache.c:17-29 | finds a page exactly when it is cached |
| `CompressedCache.Cache.ChooseVictim` | firmware/main-deck-p4/components/audio_engine/audio_compressed_cache.c:31-44 | the first empty slot, else the least stamp |
| `CompressedCache.Cache.LoadPage` | firmware/main-deck-p4/components/audio_engine/audio_compressed_cache.c:46-84 | a full read publishes the whole page in the victim's slot; a short one publishes nothing and retires the slot |
| `CompressedCache.Cache.Read` | firmware/main-deck-p4/components/audio_engine/audio_compressed_cache.c:119-153 | delivers exactly the file at that offset; all of the clamped length exactly when no backend read was short; no backend call when every page of the span is cached; it uses exactly the pages of what it delivers, in order, hits and misses alike, which makes them the most recently used |
| `CompressedCache.Cache.ReadPage` | firmware/main-deck-p4/components/audio_engine/audio_compressed_cache.c:129-151 | one page's share: the page is used once, found or loaded; nothing is taken and nothing used only if the backend fell short |
| `CompressedCache.Cache.Prefetch` | firmware/main-deck-p4/components/audio_engine/audio_compressed_cache.c:155-162 | afterwards the page is cached, or the offset was beyond the file or the backend fell short; a hit leaves recency alone |
| `CompressedCache.Cache.Warm` | firmware/main-deck-p4/components/audio_engine/audio_engine.c:1656-1664 | when both prefetches succeed, the next read's whole span is cached exactly under the condition of WarmedExactly; less than one read before the end of the file, exactly if it ends in the page of its start or its last page was cached and not evicted |
| `CompressedCache.NextEpoch` | firmware/main-deck-p4/components/audio_engine/audio_fw_preload.c:94-98 | the fault epoch always changes and is never zero |
| `CompressedCache.Preload.StreamRead` | firmware/main-deck-p4/components/audio_engine/audio_fw_preload.c:80-100 | delivers the file in order from the position; the fault epoch changes exactly on a read shorter than the clamped request |
| `CompressedCache.Preload.StreamSeek` | firmware/main-deck-p4/components/audio_engine/audio_fw_preload.c:102-119 | moves exactly to targets within the file |
| `BulkCodec.OnlyGoodFramesComplete` | firmware/control-board-s3/components/control_link/ctrl_bulk.c:204-241 | for any byte stream a completed frame has a right length and checksum and is the last bytes received |
| `BulkCodec.CompletedAreGood` | firmware/control-board-s3/components/control_link/ctrl_bulk.c:204-241 | whatever bytes arrive, only good frames are handed on |
| `BulkCodec.StreamIsDelivered` | firmware/control-board-s3/components/control_link/ctrl_bulk.c:204-241 | good frames back to back come out one by one, each exactly at its last byte |
| `BulkCodec.RecoversFromAnything` | firmware/control-board-s3/components/control_link/ctrl_bulk.c:204-241 | however a damaged stream has left the parser, at most one frame length of bytes that start no frame later it takes every good frame again |
| `BulkCodec.FrameIsGood` | firmware/control-board-s3/components/control_link/ctrl_bulk.c:28-40 | a finalized frame has a right length and checksum and holds its payload |
| `BulkCodec.BeginRoundTrip` | firmware/control-board-s3/components/control_link/ctrl_bulk.c:273-288 | the BEGIN decoder recovers size, checksum, vendor and product |
| `BulkCodec.ChunkRoundTrip` | firmware/control-board-s3/components/control_link/ctrl_bulk.c:290-310 | the CHUNK decoder recovers offset and data |
| `BulkCodec.DescriptorRoundTrip` | firmware/control-board-s3/components/control_link/ctrl_bulk.c:255-271 | the descriptor decoder recovers every field and the product string up to its field |
| `BulkCodec.StatusRoundTrip` | firmware/control-board-s3/components/control_link/ctrl_bulk.c:335-348 | the STATUS decoder recovers state, vendor and product |
| `BulkCodec.FirmwareRoundTrip` | firmware/control-board-s3/components/control_link/ctrl_bulk.c:350-364 | the firmware report decoder recovers slot, state and the version up to its field |
| `BulkCodec.CarriedWhole` | firmware/control-board-s3/components/control_link/ctrl_bulk.c:82-85 | a string that fits its field travels whole |
| `BulkCodec.RoundTrip` | firmware/control-board-s3/components/control_link/ctrl_bulk.c:69-192 | every built frame is good and its own decoder recovers the message, strings cut to their fields |
| `BulkCodec.BuiltStreamIsReceived` | firmware/control-board-s3/components/control_link/ctrl_bulk.c:204-241 | any list of built frames fed bytewise completes exactly those frames, each at its last byte, and each decodes to its message as carried |
| `BulkCodec.Finalize` | firmware/control-board-s3/components/control_link/ctrl_bulk.c:28-40 | writes header and checksum around the payload in place and nothing beyond |
| `BulkCodec.Build` | firmware/control-board-s3/components/control_link/ctrl_bulk.c:69-192 | writes the frame, strings cut to their fields; refuses exactly a chunk of no or too many bytes and a buffer too small |
| `BulkCodec.BulkParser.FeedByte` | firmware/control-board-s3/components/control_link/ctrl_bulk.c:204-241 | the parser in its 134-byte buffer does what the frame grammar says, for every byte, and stays inside |
| `ProfileTransfer.RefusalMovesToErrorExactly` | firmware/control-board-s3/components/control_link/cp_xfer.c:34-81 | a refused BEGIN always ends in ERROR, a refused chunk or end exactly if the receiver was receiving or in ERROR |
| `ProfileTransfer.RefusedWithoutError` | firmware/control-board-s3/components/control_link/cp_xfer.c:53-81 | a chunk before any BEGIN and an end after the last are refused and leave the state as it was |
| `ProfileTransfer.HandleKeeps` | firmware/control-board-s3/components/control_link/control_link_uart.c:251-359 | every frame keeps the buffer equal to the chunks taken since the last accepted BEGIN |
| `ProfileTransfer.StoredIsTheTransfer` | firmware/control-board-s3/components/control_link/control_link_uart.c:251-359 | in every run, whenever a profile is stored the buffer is the in-order concatenation of those chunks, with the announced length and checksum |
| `ProfileTransfer.ActivatesWhatArrived` | firmware/control-board-s3/components/control_link/control_link_uart.c:321-343 | an activation hands over exactly that blob, for the controller it was announced for, which is the one that was connected at its BEGIN |
| `ProfileTransfer.EveryActivationIsWhole` | firmware/control-board-s3/components/control_link/control_link_uart.c:321-343 | the same for every activation of every run |
| `ProfileTransfer.AnyByteStreamIsSafe` | firmware/control-board-s3/components/control_link/control_link_uart.c:361-378 | from boot on, whatever bytes arrive: every activated and every stored profile is a whole transfer |
| `ProfileTransfer.BeginAckedExactly` | firmware/control-board-s3/components/control_link/control_link_uart.c:254-289 | a BEGIN that does not name the connected controller is refused and leaves everything as it was; one that does is acknowledged exactly if the size is right and there is memory |
| `ProfileTransfer.EveryBeginNamesTheConnected` | firmware/control-board-s3/components/control_link/control_link_uart.c:262-268 | in every run each acknowledged BEGIN named the controller connected at that moment |
| `ProfileTransfer.ChunkTakenExactly` | firmware/control-board-s3/components/control_link/control_link_uart.c:290-307 | a chunk is taken exactly if it continues a transfer under way and fits |
| `ProfileTransfer.EndAndActivateExactly` | firmware/control-board-s3/components/control_link/control_link_uart.c:308-343 | an end is acknowledged and the profile stored exactly if the whole announced blob has come; an activation reaches the callback exactly if a profile is stored, and is answered by what came of it |
| `ProfileTransfer.ClearIsQuiet` | firmware/control-board-s3/components/control_link/control_link_uart.c:344-354 | a clear tells the callback and forgets both the profile and a transfer under way; so does a refused BEGIN for the connected controller |
| `ProfileTransfer.QuietUntilBegin` | firmware/control-board-s3/components/control_link/control_link_uart.c:251-359 | from then on no run activates a profile before a BEGIN is acknowledged |
| `ProfileTransfer.BlobArrives` | firmware/main-deck-p4/components/controller_profile_manager/controller_profile_manager.c:671-695 | a blob streamed over a clean line to a receiver in any state reaches activation unchanged, through builders, byte stream, parser, decoders and handler |
| `ProfileTransfer.ProfileLink.TakeChunk` | firmware/control-board-s3/components/control_link/cp_xfer.c:53-67 | the chunk joins the buffer in place when it is next and fits; else the transfer fails or nothing changes |
| `ProfileTransfer.ProfileLink.FinishTransfer` | firmware/control-board-s3/components/control_link/cp_xfer.c:69-81 | stored exactly when every byte arrived and the checksum is right |
| `ProfileTransfer.ProfileLink.BeginFrame` | firmware/control-board-s3/components/control_link/control_link_uart.c:254-289 | a BEGIN for the connected controller restarts the transfer; any other leaves everything as it was |
| `ProfileTransfer.ProfileLink.HandleFrame` | firmware/control-board-s3/components/control_link/control_link_uart.c:251-359 | the handler does in place what Handle does on values, for every frame |
| `MidiOut.CompleteKeeps` | firmware/control-board-s3/components/flx4_midi_host/flx4_midi_host.c:834-847 | completing a transfer extends the completed packets in order, and breaks the prefix exactly after a payload was given up |
| `MidiOut.StepKeeps` | firmware/control-board-s3/components/flx4_midi_host/flx4_midi_host.c:696-1184 | every step of producers and USB owner keeps the invariant, including all failures of open, submit, free, release and close |
| `MidiOut.EveryRunIsSafe` | firmware/control-board-s3/components/flx4_midi_host/flx4_midi_host.c:995-1070 | in every interleaving: no transfer in flight is freed or submitted, the interface is released only after all transfers are gone, no packet of an earlier connection completes in a later one, none twice or out of order; the completed packets are a prefix of those enqueued exactly until a transfer completes after a payload was given up |
| `MidiOut.PacketsCanBeSkipped` | firmware/control-board-s3/components/flx4_midi_host/flx4_midi_host.c:834-866 | a run in which a failed free after NO_DEVICE lets a later packet complete without an earlier one |
| `MidiOut.EveryPacketIsTreatedFairly` | firmware/control-board-s3/components/flx4_midi_host/flx4_midi_host.c:696-1398 | in every run: a producer is admitted exactly if it finds the flag set; an admitted packet joins the queue unless that is full or its reserve is kept; only the fill and the teardown take packets out; a payload leaves by completing, or is given up when the device or the connection goes |
| `MidiOut.QueueDrains` | firmware/control-board-s3/components/flx4_midi_host/flx4_midi_host.c:696-747 | with nothing failing, enough passes of the pump deliver the whole queue, in order, at most sixteen packets a transfer |
| `DeckAdmission.AdvanceCycles` | firmware/main-deck-p4/components/audio_engine/audio_engine.c:1147-1153 | the generation after n advances cycles through 1 to 2^32 - 1 and skips 0 |
| `DeckAdmission.GenerationMatches` | firmware/main-deck-p4/components/audio_engine/audio_engine.c:4395-4410 | a generation reached after m advances is current after n exactly when a whole number of cycles of 2^32 - 1 lies between |
| `DeckAdmission.NextKeeps` | firmware/main-deck-p4/components/audio_engine/audio_engine.c:4351-4482 | every lock, unlock and update of any thread keeps the invariant |
| `DeckAdmission.SuspensionKeepsLoadsOut` | firmware/main-deck-p4/components/audio_engine/audio_engine.c:4421-4472 | in every run, from a successful suspension to its owner's resume no load on any deck has passed admission |
| `DeckAdmission.DecksChangeOneAtATime` | firmware/main-deck-p4/components/audio_engine/audio_engine.c:4351-4410 | in every run at most one thread at a time loads or stops a deck |
| `DeckAdmission.StopActsOnItsSession` | firmware/main-deck-p4/components/audio_engine/audio_engine.c:4395-4410 | in every run a stop that carries a generation goes on exactly when a whole number of cycles of 2^32 - 1 loads and effective stops has been made on the deck since the generation was handed out; short of that, exactly when none has |
| `DeckAdmission.EveryCallIsMade` | firmware/main-deck-p4/components/audio_engine/audio_engine.c:4351-4455 | in every run an admitted load, an effective stop and a stop of all decks, on both, have made their engine call last when they let go of the deck; a load or a suspension is refused only while loads are shut out |
| `DeckAdmission.LoadHandsOutItsSession` | firmware/main-deck-p4/components/audio_engine/audio_engine.c:4351-4365 | the generation a load returns is not zero and is that of its own session |
| `DeckAdmission.NeverDeadlocked` | firmware/main-deck-p4/components/audio_engine/audio_engine.c:1135-1145 | in every run, while any call is under way some thread can take a step |
| `Ota.BeginKeeps` | firmware/control-board-s3/components/s3_ota/s3_ota.c:88-141 | beginning keeps the invariant, with every failure of slot, flash and hash |
| `Ota.WriteKeeps` | firmware/control-board-s3/components/s3_ota/s3_ota.c:143-170 | writing keeps the hashed and the written bytes equal, or fails and closes |
| `Ota.FinishKeeps` | firmware/control-board-s3/components/s3_ota/s3_ota.c:172-244 | finishing ends in READY only with a verified image |
| `Ota.EveryRunIsSafe` | firmware/control-board-s3/components/s3_ota/s3_ota.c:44-254 | in every run with failing calls: READY only with the manifest's length, SHA-256, project and version; a handle is open exactly while receiving; every opened handle is closed exactly once |
| `Ota.FinishSucceedsExactly` | firmware/control-board-s3/components/s3_ota/s3_ota.c:172-244 | finishing succeeds exactly when all bytes came, digest and description match and every call succeeded; it never leaves the updater receiving |
| `Ota.BeginSucceedsExactly` | firmware/control-board-s3/components/s3_ota/s3_ota.c:88-141 | beginning succeeds exactly when no update is under way, the image is at least a header long and fits the slot, and every call succeeded; other failures change nothing or leave nothing open |
| `Ota.WriteSucceedsExactly` | firmware/control-board-s3/components/s3_ota/s3_ota.c:143-170 | a write is taken exactly while receiving, when it is not empty and stays within the announced length, and both calls succeed |
| `Ota.RightImageArrives` | firmware/control-board-s3/components/s3_ota/s3_ota.c:88-244 | from any state but an update under way, a right image written in pieces of any sizes ends ready to reboot with exactly that image in flash, when no call fails |
| `Ota.Service.BeginUpdate` | firmware/control-board-s3/components/s3_ota/s3_ota.c:88-141 | the begin operation in place |
| `Ota.Service.WriteData` | firmware/control-board-s3/components/s3_ota/s3_ota.c:143-170 | the write operation in place |
| `Ota.Service.FinishUpdate` | firmware/control-board-s3/components/s3_ota/s3_ota.c:172-244 | the finish operation in place |
| `Ota.Service.AbortUpdate` | firmware/control-board-s3/components/s3_ota/s3_ota.c:246-254 | closes what is open and fails |
| `Ota.GuardedReceive` | firmware/control-board-s3/components/s3_debug_ap/s3_ota_http.c:21-51 | hands on delivered bytes only within the deadline and the progress window; RECV_TIMEOUT exactly on an objection of the guard or the fifth timeout, RECV_ERROR exactly on any other failure |
| `Ota.Process` | firmware/control-board-s3/components/s3_debug_ap/s3_ota_http.c:67-184 | a lone request never returns with the updater receiving; it answers OK only if the client delivered a signed manifest and then exactly the bytes now in flash, which are verified; during another update it changes nothing |
| `RoundRobin.NextIsNearest` | firmware/common/control_event_scheduler/control_event_scheduler.c:108-127 | a cyclic scan finds the nearest ready slot, and nothing only if none is ready |
| `RoundRobin.ServingBringsNearer` | firmware/common/control_event_scheduler/control_event_scheduler.c:108-127 | after serving a slot every other ready slot is strictly nearer to the cursor |
| `EventScheduler.FindSpec` | firmware/common/control_event_scheduler/control_event_scheduler.c:44-59 | the control's own slot if it has one, else a free one, else none |
| `EventScheduler.PublishRefusedExactly` | firmware/common/control_event_scheduler/control_event_scheduler.c:61-106 | a publication is refused exactly when the control has no slot and none is free, and then changes nothing |
| `EventScheduler.ClampIsNearest` | firmware/common/control_event_scheduler/control_event_scheduler.c:61-106 | saturation gives the nearest value that fits |
| `EventScheduler.KeysStayDistinct` | firmware/common/control_event_scheduler/control_event_scheduler.c:61-106 | in every run no control gets a second slot |
| `EventScheduler.DeltasAreConserved` | firmware/common/control_event_scheduler/control_event_scheduler.c:61-127 | in every run, for every control always published as a delta, delivered plus pending is the sum of accepted deltas less exactly what saturation cut off |
| `EventScheduler.LatestValueArrives` | firmware/common/control_event_scheduler/control_event_scheduler.c:61-127 | in every run, for every control always published as a latest value, what is pending is the value last accepted, and once nothing is pending it is the value last delivered |
| `EventScheduler.DirtySlotIsServed` | firmware/common/control_event_scheduler/control_event_scheduler.c:108-127 | whatever is published meanwhile, a dirty slot is taken within 32 takes, by a strictly decreasing cursor distance |
| `EventScheduler.Scheduler.EnqueueDiscrete` | firmware/common/control_event_scheduler/control_event_scheduler.c:13-30 | joins the end of the queue; refused exactly when 32 events wait |
| `EventScheduler.Scheduler.DequeueDiscrete` | firmware/common/control_event_scheduler/control_event_scheduler.c:32-42 | the oldest event leaves |
| `EventScheduler.Scheduler.PublishContinuous` | firmware/common/control_event_scheduler/control_event_scheduler.c:61-106 | publishes into the control's slot in place |
| `EventScheduler.Scheduler.TakeContinuous` | firmware/common/control_event_scheduler/control_event_scheduler.c:108-127 | takes the next dirty slot in place |
| `EventScheduler.RoundComesNearer` | firmware/control-board-s3/main/app_main.c:511-521 | one of n takes serves a waiting slot, or all n bring the cursor that much nearer to it |
| `EventScheduler.Scheduler.SchedulePending` | firmware/control-board-s3/main/app_main.c:495-522 | a pass sends up to eight discrete events in order and up to four continuous ones round robin |
| `LedReconciler.WantedIsKept` | firmware/control-board-s3/components/control_link/controller_led_reconciler.c:10-69 | in every run the table holds the value last observed of every LED |
| `LedReconciler.CleanMeansShown` | firmware/control-board-s3/components/control_link/controller_led_reconciler.c:10-59 | in every run a clean LED was last sent the value last wanted, whatever arrived while it was being sent |
| `LedReconciler.StaleIsDirty` | firmware/control-board-s3/components/control_link/controller_led_reconciler.c:10-69 | in every run a known LED that was last sent another value than the one wanted, or none, is dirty |
| `LedReconciler.DirtyExactly` | firmware/control-board-s3/components/control_link/controller_led_reconciler.c:43-69 | a report clears exactly the LED sent, exactly if it is still wanted so; a mark leaves every known LED dirty and no unknown one; neither changes what is wanted |
| `LedReconciler.DirtyLedIsOffered` | firmware/control-board-s3/components/control_link/controller_led_reconciler.c:23-41 | even if every send fails, a dirty LED is offered within decks x ids calls, by a strictly decreasing cursor distance |
| `LedReconciler.Reconciler.ObserveLed` | firmware/control-board-s3/components/control_link/controller_led_reconciler.c:10-21 | the wanted value becomes known and dirty; refused exactly outside the table |
| `LedReconciler.Reconciler.NextLed` | firmware/control-board-s3/components/control_link/controller_led_reconciler.c:23-41 | offers the next dirty LED by deck, id and value |
| `LedReconciler.Reconciler.CompleteLed` | firmware/control-board-s3/components/control_link/controller_led_reconciler.c:43-59 | clears the dirty bit exactly when the value sent is still the one wanted |
| `LedReconciler.Reconciler.MarkAllDirty` | firmware/control-board-s3/components/control_link/controller_led_reconciler.c:61-69 | every known LED becomes dirty |
| `HeldStates.ReleaseKeepsKey` | firmware/common/control_state_reconciler/include/control_state_reconciler.h:38-84 | releasing a held control keeps its slot |
| `HeldStates.ReleaseIsExact` | firmware/common/control_state_reconciler/include/control_state_reconciler.h:156-197 | a released control is not pressed, a pad or an extra key keeps its seven low bits, releasing again changes nothing |
| `HeldStates.WishesAreKept` | firmware/common/control_state_reconciler/include/control_state_reconciler.h:93-197 | in every run a slot wants exactly what was last observed of its control, or its release |
| `HeldStates.CleanMeansSent` | firmware/common/control_state_reconciler/include/control_state_reconciler.h:93-127 | in every run with failing sends slot i holds a control of key i, and a clean slot was last sent its desired value exactly unless an overtaken value has been sent and not yet marked |
| `HeldStates.OvertakenMomentExists` | firmware/control-board-s3/main/app_main.c:239-262 | a run that reaches that moment |
| `HeldStates.FlushCleansAll` | firmware/control-board-s3/main/app_main.c:239-262 | a failure-free undisturbed flush marks every dirty slot with its desired value, leaves nothing dirty and changes no wish |
| `HeldStates.Reconciler.ObserveControl` | firmware/common/control_state_reconciler/include/control_state_reconciler.h:93-113 | records the wish and compares it with what was scheduled |
| `HeldStates.Reconciler.MarkScheduled` | firmware/common/control_state_reconciler/include/control_state_reconciler.h:115-127 | records what was sent; a newer wish stays dirty |
| `HeldStates.Reconciler.ReleaseAllControls` | firmware/common/control_state_reconciler/include/control_state_reconciler.h:179-197 | every observed control is released in place |
| `HeldStates.Reconciler.FindDirty` | firmware/common/control_state_reconciler/include/control_state_reconciler.h:129-154 | the first observed dirty slot from the cursor on |
| `HeldStates.Reconciler.FlushPending` | firmware/control-board-s3/main/app_main.c:239-262 | up to the first failed send every dirty slot is sent its desired value once, in order, and is clean; the others are as they were; without a failure nothing stays dirty |
| `ControllerProfile.AcceptedIsInBounds` | firmware/control-board-s3/components/controller_profile/controller_profile.c:39-132 | every accepted blob has exactly the length of its tables, the right checksum, and only known types and pair slots below the count |
| `ControllerProfile.EntryRoundTrip` | tools/controller_profile/compile_profile.py:212-216 | a packed entry is read back field for field, signs included |
| `ControllerProfile.InputsRoundTrip` | firmware/control-board-s3/components/controller_profile/controller_profile.c:88-114 | a packed input table is read back entry for entry |
| `ControllerProfile.OutputsRoundTrip` | firmware/control-board-s3/components/controller_profile/controller_profile.c:116-129 | a packed output table is read back entry for entry |
| `ControllerProfile.InputsAreWellFormed` | tools/controller_profile/compile_profile.py:237-315 | the compiler emits known raw types and only pair slots it has handed out, at most forty |
| `ControllerProfile.CompiledIsParsed` | tools/controller_profile/compile_profile.py:360-399 | whatever profile the compiler accepts, the parser accepts its bytes and reads back the same header and tables |
| `ControllerProfile.CompileInputList` | tools/controller_profile/compile_profile.py:237-315 | the appending and slot-allocating loop is the table compilation, and raises exactly when it does |
| `ControllerTables.InputsAreBound` | tools/controller_profile/compile_profile.py:237-315 | the table compilation raises exactly if a name is not known or the pairs outnumber the forty slots; else every message of every input has its entry, with its address, raw type, flags, value and meaning, in the order of the profile |
| `ControllerTables.PairsNeverMix` | tools/controller_profile/compile_profile.py:237-315 | whatever compiles, an entry of a pair has its partner beside it and no two pairs share a slot |
| `ControllerTables.OutputIsBound` | tools/controller_profile/compile_profile.py:318-358 | an output raises exactly if a name is not known or a bank has the wrong size; a bank lights its r-th LED on deck d by the r-th note at that deck's status |
| `ControllerProfile.ParseProfile` | firmware/control-board-s3/components/controller_profile/controller_profile.c:39-132 | the parser's checks and loops are the format: the same result or the same error for every input |
| `Pacing.SanitizedRange` | firmware/main-deck-p4/components/audio_engine/audio_resampler.c:9-32 | every float, also not finite or negative, becomes positive with a shift of 2 to 13 |
| `Pacing.SanitizedIsNearest` | firmware/main-deck-p4/components/audio_engine/audio_resampler.c:9-22 | a finite pitch becomes the nearest one in the range, itself when inside; any other becomes one, whose step is one source frame |
| `Pacing.StepIsExact` | firmware/main-deck-p4/components/audio_engine/audio_resampler.c:24-32 | the Q32 step is the sanitized pitch times 2^32 exactly |
| `Pacing.RequestsAreExact` | firmware/main-deck-p4/components/audio_engine/audio_resampler.c:70-85 | n outputs at constant pitch fetch exactly floor((phase + n * step) / 2^32) source frames |
| `Pacing.Resampler.NextFrame` | firmware/main-deck-p4/components/audio_engine/audio_resampler.c:54-85 | one output fetches exactly the whole part, in order; an underrun holds the last frame |
| `Pacing.UnderrunHolds` | firmware/main-deck-p4/components/audio_engine/audio_resampler.c:70-85 | after any fetches the current frame is the last that came, or still the one held, and the previous one is what was current before the last fetch |
| `Pacing.NoDriftExactly` | firmware/control-board-s3/components/flx4_usb_audio/flx4_uac_packetizer.c:18-28 | n packets carry exactly floor(n * rate / 1000) frames for every n exactly at rates up to 65 535 000 |
| `Pacing.EachPacketNearTheMean` | firmware/control-board-s3/components/flx4_usb_audio/flx4_uac_packetizer.c:18-28 | each packet carries the floor of the mean or one frame more |
| `Pacing.Packetizer.NextFrames` | firmware/control-board-s3/components/flx4_usb_audio/flx4_uac_packetizer.c:18-28 | the accumulator in place; the total since reset does not drift |
| `Pacing.Packetizer.NextBytes` | firmware/control-board-s3/components/flx4_usb_audio/flx4_uac_packetizer.c:30-38 | frames times channels times sample size, without overflow |

## Left out

- Floating-point sound processing, interpolation of the resampled frame, decoders, mixer routing: the
  properties are about sound and rounding.
- The profile runtime that maps MIDI messages (controller_profile.c after line 132) and the name
  tables of the compiler: case tables settled one branch at a time. The model takes event names,
  banks and modes as already looked up, or as unknown.
- The 7-byte event frames that share the control link with bulk frames.
- SHA-256, the signature check and the manifest format: arbitrary functions.
- The text of error messages, statistics that nothing depends on, log output, status LEDs.
- Weak memory: all interleavings are sequentially consistent.
- TimelineInterleaving: repositioning and dropping are single steps with the other task excluded,
  because the code reads the write cursor and its index separately; a run stays below 2^63 frames.
- Recorder: one task starts and stops at a time. The web server and the boot code both call start and
  stop (firmware/main-deck-p4/components/web_server/web_server.c:877, firmware/main-deck-p4/main/app_main.c:223)
  and the recorder does not serialise them. In the interleaved model a session stays below 2^32 blocks,
  see SlotsDistinctIffDivides; disk-space and file-name logic is not part of this model.
- RecorderRing: high-water marks.
- CompressedCache: the use counter is unbounded (64 bits in the code), offsets are unbounded, so a
  warm offset past 2^32 does not wrap; only one task uses the cache.
- CompressedCache.Preload.StreamSeek: the 64-bit sum of position and offset does not overflow.
- ProfileTransfer: replies and retries of the sender are not modelled beyond one clean attempt; the
  receiver's runs are over every byte stream of bulk frames.
- MidiOut: retry counters, drop policy and USB audio appear only as arbitrary answers; queue operations are atomic.
- DeckAdmission: what a load or a stop does to the audio is one call into the engine; only the thread
  that suspended resumes, as the callers do; a stop carries a generation its deck has handed out.
- Ota: calls before the first initialisation, which the code refuses for want of a lock, and the
  status snapshot.
- EventScheduler: saturation and overflow counters.
- EventScheduler.Scheduler.SchedulePending: nothing is published between the takes of one pass here; DirtySlotIsServed covers that.
- HeldStates: one sender; the replay on reconnection, which sends alongside it, is not modelled.
- LedReconciler: one sender that reports each offer before it is offered again.
