# Distributed donut: a verified model of the render/broadcast pipeline

The server of this system draws no frame. It cuts an endless animation into one-second batches, hands each batch to a
connected browser, takes packed frames back, keeps them in one circular buffer and broadcasts them to everybody, who
unpack and play them. All the difficulty is coordination: a producer loop, a consumer loop, one retry goroutine for each
batch, and a fleet that joins, leaves, stalls, repeats and invents answers, all sharing one ring and one task table.
The central claim proved here is that whatever the fleet does, the bytes broadcast are whole accepted results in batch
order, and with workers that answer only what they were asked, they are exactly the animation, frame by frame.

## How it is laid out

| module | file | what it holds |
|---|---|---|
| `Wire` | Wire.dfy | sizes, big-endian integers, message layouts, all parsers |
| `FrameRing` | Ring.dfy | the server's ring: byte-level specification, its refinement of a FIFO of batches, class `FrameBuffer` |
| `Fleet` | Fleet.dfy | the bounded send queue, classes `Client` and `ClientPool` |
| `TaskTable` | TaskMap.dfy | the nested task map, class `FrameBatchMap`, the read loop's message handler |
| `Pipeline` | Pipeline.dfy | the labelled transition system: states, labels, guards, effects |
| `Invariant`, `Safety` | Invariant.dfy, Safety.dfy | the invariant and its preservation by every step |
| `Runs` | Runs.dfy | what holds over whole runs with arbitrary, adversarial clients |
| `Membership` | Membership.dfy | who is connected, chosen and heard along a run, and what the loops do not do while nobody is there |
| `Queues` | Queues.dfy | every client's queue in the pipeline is an isolated queue |
| `Timeline` | Timeline.dfy | honest workers: the broadcast is the animation |
| `Progress` | Progress.dfy | a decreasing measure: the next broadcast is reachable exactly when it fits the ring |
| `Settings` | Settings.dfy | which settings the pipeline is live under, and when its two waits deadlock |
| `Codec`, `Viewer` | Codec.dfy, Viewer.dfy | the nibble codec and the page's drop-oldest playback ring |
| `Integrity` | Integrity.dfy | the watermark renderer and the checker of the end-to-end tests |
| `EndToEnd` | EndToEnd.dfy | from the text a worker renders to the text a viewer plays |
| `Browsers` | Browsers.dfy | runs in which every answer is, byte for byte, a browser's reply to a delivered request |
| `Turns` | Turns.dfy | the orchestrator's loop bodies on the real objects |

Objects that the source updates in place are classes (`FrameBuffer`, `Client`, `ClientPool`, `FrameBatchMap`,
`CircularBuffer`); each method is proved against a function of the old state (`Write`, `Read`, `Remove`, `Offer`, `Take`,
`Put`, `Drop`, `Move`, `Save`, `Newest`). The transition system is built from those same functions, so what the lemmas say
about a step is what the method does.

In the transition system one label is one locked section or one channel operation of one goroutine. Timing out, picking
the next worker and switching the executor are three steps; so are waiting, reading, sending to each client and
removing, and a connection draws its client ID in one step and is admitted or rejected in another.
A result may therefore complete a task between its timeout and its switch, either ready arm of a select may win, a picked
client may be gone before it is asked, and a full queue silently drops a request. Timers and the scheduler are the choice
of the next label. Answers carry any ID, from any client, any number of times, with any bytes of batch length; messages of
any other shape never get past `TaskTable.HandleReceivedMessage`.

Four fields of the state are history only: the number of rounds closed, every payload broadcast, the result that closed
each `done` channel, and the batch each (client, task ID) pair was filed under.

`Runs.Reached` describes a run from a fresh server during which no 32-bit counter wraps (at most 2^32 task IDs for each
client, fewer than 2^32 connections); `Runs.IdsRepeatExactlyAfterWrap` shows that this is exactly when IDs stay unique.

## Model

| member | source | states |
|---|---|---|
| `Timeline.BroadcastIsTheAnimation` | internal/orchestrator/orchestrator.go:123-255 | over every run with honest workers, however slow, repetitive, lossy or short-lived, the concatenation of all broadcasts is frames 0, 1, 2, ... of the animation modulo 108000, without gap, repeat or reordering |
| `Browsers.BrowsersPlayTheAnimation` | web/static/donut-worker.js:114-119 | if every result in a run is, byte for byte, what a browser sends back for a request it received, a connected viewer that lost no message and whose ring never overflowed plays exactly the rendered frames in timeline order, through rendering, packing, parsing, storing, wrapped reading, broadcasting, unpacking and both queues |
| `Browsers.BrowsersAreHonest` | web/static/donut-worker.js:83-119 | over a whole run, browsers' replies, parsed by the server, are honest results, however late or repeated |
| `Browsers.ReplyRendersRequest` | internal/protocol/render_result.go:16-30 | a reply that the server accepts answers a request, under its ID, with the rendering of its range |
| `Browsers.OneBrowserIsEnough` | internal/orchestrator/orchestrator.go:229-255 | one connected browser suffices for another broadcast that fits the ring |
| `EndToEnd.ViewerPlaysWhatWorkersRendered` | web/static/script.js:144-183 | with honest workers, a connected viewer that lost no message and whose ring never overflowed plays exactly the rendered strings in timeline order, up to the last broadcast it received, whatever still waits in its queue |
| `Progress.AnotherBroadcastIsReachable` | internal/orchestrator/orchestrator.go:225-255 | from every reachable state with one connected worker and task IDs left, another broadcast is reachable if and only if it fits the ring (at most 1800 seconds); then the goroutines, that worker's writer and its honest answers alone bring it about, within an explicit number of steps; otherwise no run ever sends anything again |
| `Progress.IdsLeftIsBudget` | internal/client/client.go:156-162 | 34225 unused IDs for each client, plus two for each connection ever admitted, are enough for such a schedule |
| `Progress.SomeStepAdvances` | internal/orchestrator/orchestrator.go:229-255 | while the next broadcast fits the ring, some enabled step starts it or strictly lowers the measure over the broadcast phase, missing rounds, unfinished goroutines and the worker's queue |
| `Progress.OpenRoundCanClose` | internal/orchestrator/orchestrator.go:185-187 | with task IDs left, an open round can always be finished and the head advanced over all its batches, for any settings |
| `Progress.JoiningIsEnough` | internal/client/pool.go:61-68 | with nobody connected, a schedule that starts with one connection and its admission reaches one more broadcast that fits |
| `Settings.OversizedSettingsStopBroadcasts` | internal/orchestrator/orchestrator.go:131-136 | a first setting above 1800 stops the very first broadcast in every run, a later one above 1800 every broadcast but the first |
| `Settings.WaitsDeadlockExactlyWhenOversized` | internal/buffer/frame_buffer.go:163-193 | some run brings dispatcher and broadcaster to wait for each other if and only if a setting exceeds 1800 |
| `Settings.BlockedForEver` | internal/buffer/frame_buffer.go:163-193 | once both wait in vain they do so for ever, whatever the clients do |
| `Runs.EveryRunIsSafe` | internal/orchestrator/orchestrator.go:123-255 | in every run, with any clients, the invariant holds and no panic happens: no slice out of range, no double close, no switch to the same client, no removal of more than is buffered |
| `Safety.StepKeepsInv` | internal/orchestrator/orchestrator.go:123-255 | every single step of every goroutine and every client keeps the invariant |
| `Runs.BroadcastIsAcceptedResultsInOrder` | internal/orchestrator/orchestrator.go:136-141 | with adversarial clients the bytes broadcast so far are one whole accepted result for each batch, in batch order |
| `Membership.NothingIsSentToNobody` | internal/orchestrator/orchestrator.go:136-141 | from a state with nobody connected and the broadcaster waiting, nothing is sent and nothing leaves the ring along any run until somebody joins |
| `Membership.NothingIsDispatchedToNobody` | internal/orchestrator/orchestrator.go:167-184 | from a state with nobody connected and the dispatcher waiting, no round is opened and no task filed along any run until somebody joins |
| `Membership.MembershipFollowsTheRun` | internal/client/pool.go:37-53 | in every run each ID is awaiting admission, a member, refused or departed exactly as its own connection's events say; one client's coming and going never touches another's |
| `Membership.DepartedGetNoWork` | internal/client/pool.go:85-96 | a client that left with no choice of it pending never draws a task ID again, along any run |
| `Membership.DepartedHearNothing` | internal/client/pool.go:119-132 | a client that left and is in no snapshot in progress is never offered another broadcast, along any run |
| `Membership.FleetIsUnrestricted` | internal/orchestrator/orchestrator.go:239-243 | in every reached state members may leave, numbered connections be admitted or refused, writers write, anybody answer anything of batch length, and any waiting goroutine time out, closed channel or not |
| `Membership.CompletedTaskCanBeSwitched` | internal/orchestrator/orchestrator.go:239-252 | from every reached state a waiting goroutine whose channel is closed can time out and hand its finished entry, as it is, to another member, changing neither ring nor results |
| `Queues.QueuesAreIndependent` | internal/client/client.go:114-123 | in every run a client's queue and history are those of an isolated queue under the events addressed to it, and it lost a message if and only if more than 15 were once waiting for its own writer |
| `Runs.PublishedBytesAreStable` | internal/orchestrator/batch_map.go:68-89 | with adversarial clients a published byte never changes until the tail passes it |
| `Runs.StepAcceptsAtMostOne` | internal/orchestrator/batch_map.go:68-89 | a step stores nothing, or exactly one batch of the open round, into exactly its slot, that had no result before |
| `Runs.HistoryIsNeverRewritten` | internal/orchestrator/batch_map.go:76-87 | along any run a batch keeps its first result, a closed channel stays closed, a broadcast stays sent and a filed (client, task ID) pair keeps naming its batch |
| `Runs.OnlyTheHolderCanStore` | internal/orchestrator/batch_map.go:68-80 | a result changes the server if and only if its sender currently holds an unfinished batch under that very ID; late, retired, foreign and duplicate results change nothing, also after handoffs there and back |
| `Runs.NoAnswerIsPunished` | internal/orchestrator/batch_map.go:68-89 | in every run and for every sender the save reports stored exactly for the holder of an unfinished batch, duplicate exactly for the holder of a finished one, and not assigned otherwise; it never fails, so no well-formed answer costs its sender the connection |
| `Runs.CompletedIffClosed` | internal/orchestrator/batch_metadata.go:5-18 | an entry is completed if and only if its done channel is closed, through any chain of switches; no batch behind the head lacks its result |
| `Runs.TableMirrorsGoroutines` | internal/orchestrator/orchestrator.go:229-255 | table entries and registered unfinished goroutines are in bijection through (worker, task ID), no inner map stays empty, and between rounds the table is empty |
| `Runs.JobsOwnDistinctSlots` | internal/orchestrator/orchestrator.go:171-184 | the batches of a round own pairwise disjoint stretches of the ring |
| `Runs.IdsRepeatExactlyAfterWrap` | internal/client/client.go:156-162 | a drawn task ID repeats an earlier one of its client if and only if 2^32 IDs have been drawn |
| `Runs.RoomIsKept` | internal/buffer/frame_buffer.go:54-94 | head and tail stay multiples of the batch size, an open round fits the ring, and after its wait the broadcaster's read is never nil and its removal never panics, under all interleavings with the dispatcher |
| `Runs.HeadCountsClosedRounds` | internal/orchestrator/orchestrator.go:162-190 | the head moves only when a round ends, over the batches of that round: one first round, then later ones |
| `Runs.EveryClientHearsEveryBroadcast` | internal/client/pool.go:119-132 | in every run a connected client has been offered every broadcast since its admission once and in order, whatever the other queues look like |
| `Runs.LackingFramesMeansEmpty` | internal/orchestrator/orchestrator.go:131-167 | rounds and broadcasts run through the same sizes, so whenever the broadcaster lacks frames the ring holds none |
| `Runs.SomeWaitPasses` | internal/orchestrator/orchestrator.go:124-167 | with both settings at most 1800, among them the default 6 and 4, the two waits are never both blocked, for any mix of first and later rounds and broadcasts |
| `Timeline.AnsweringRequestsIsHonest` | internal/orchestrator/orchestrator.go:236-252 | a worker that only renders what it was sent satisfies the honesty assumption, through any chain of timeouts and handovers |
| `Timeline.AnimationFrame` | internal/buffer/frame_buffer.go:111-116 | frame k of the animation lies at its byte position and is frame number k modulo 108000 |
| `Pipeline.PlanRound` | internal/orchestrator/orchestrator.go:171-184 | the dispatcher's loop produces the planned frame ranges in its 32-bit arithmetic |
| `Pipeline.PlannedRangesAreBatches` | internal/orchestrator/orchestrator.go:171-178 | the k-th range covers 60 whole frames below 108000, nothing overflows 32 bits, its offset is (head + k batches) modulo the ring, and its one copy never crosses the array end |
| `Turns.BroadcastTurn` | internal/orchestrator/orchestrator.go:139-141 | a broadcaster turn offers every client exactly the oldest batches, which then leave the FIFO, and does not panic |
| `Turns.StartTask` | internal/orchestrator/orchestrator.go:231-236 | a picked worker's task is numbered, filed under that number and requested under it |
| `Turns.RetryTask` | internal/orchestrator/orchestrator.go:244-252 | the same worker is asked again under its old ID, another one takes the entry over under an ID of its own; the switch never panics |
| `FrameRing.FrameBuffer.constructor` | internal/buffer/frame_buffer.go:29-36 | a fresh ring is an empty aligned FIFO |
| `FrameRing.FrameBuffer.AddFramesToBuffer` | internal/buffer/frame_buffer.go:38-52 | the in-place copy is the specified write: error on a start after the end, 32-bit offset, panic when the slice leaves the array, other bytes unchanged |
| `FrameRing.FrameBuffer.GetFramesToBroadcast` | internal/buffer/frame_buffer.go:54-77 | nil when too little is buffered, otherwise the two-part copy is the wrapped window at the tail |
| `FrameRing.FrameBuffer.RemoveSentFramesFromBuffer` | internal/buffer/frame_buffer.go:79-94 | panics exactly when more is removed than buffered, leaving the ring as it was; otherwise only the tail moves |
| `FrameRing.FrameBuffer.AdvanceHead` | internal/buffer/frame_buffer.go:173-180 | only the head moves; the ring stays within its size exactly when the batches fit |
| `FrameRing.FrameBuffer.GetNextFrameNumber` | internal/buffer/frame_buffer.go:111-116 | on an aligned ring, the first frame number of the next batch, whose 32-bit write offset is the head's place in the ring |
| `FrameRing.QueriesCountBatches` | internal/buffer/frame_buffer.go:111-139 | on an aligned ring every frame-counting query is a comparison of batch counts |
| `FrameRing.OffsetFits` | internal/buffer/frame_buffer.go:46-49 | no frame number overflows the 32-bit offset, and the copy fits the array exactly when a whole batch of frame numbers is left |
| `FrameRing.OffsetOverflows` | internal/buffer/frame_buffer.go:46-46 | the 32-bit product is exact below frame 4880645 and loses 2^32 from there on |
| `FrameRing.WriteFillsOneSlot` | internal/buffer/frame_buffer.go:46-49 | storing batch b succeeds, fills slot b modulo 1800 and leaves every other slot alone |
| `FrameRing.WindowIsSlots` | internal/buffer/frame_buffer.go:67-74 | a window read across the wrap is its slots in batch order |
| `FrameRing.ReadTakesPrefix` | internal/buffer/frame_buffer.go:54-77 | reading n seconds succeeds if and only if the FIFO holds n batches, and gives its first n batches |
| `FrameRing.RemoveDropsPrefix` | internal/buffer/frame_buffer.go:81-94 | removing n seconds succeeds if and only if the FIFO holds n batches, and drops exactly those |
| `FrameRing.WriteAheadKeepsContents` | internal/buffer/frame_buffer.go:38-52 | storing an unpublished batch leaves the FIFO as it was |
| `FrameRing.AdvanceAppendsSlots` | internal/buffer/frame_buffer.go:174-180 | advancing the head over n filled slots appends them to the FIFO |
| `Fleet.EveryQueueRunIsOrdered` | internal/client/client.go:79-123 | in any run at most 15 messages wait, the writer's output is an in-order subsequence of the offers, and offers = written + waiting + dropped |
| `Fleet.LosesNothingExactlyWhenKeepingUp` | internal/client/client.go:114-123 | a client loses a message if and only if at some point more than 15 are waiting for its writer |
| `Fleet.NothingDroppedNothingMissing` | internal/client/client.go:114-123 | without a drop, what was written and what still waits is everything offered, in order |
| `Fleet.Client.GenerateNewRenderTaskID` | internal/client/client.go:156-162 | IDs count up from 0 and wrap at 2^32 |
| `Fleet.Client.Enqueue` | internal/client/client.go:117-123 | a message is appended, or dropped exactly when the queue is full, never blocking |
| `Fleet.Client.RequestWork` | internal/client/client.go:164-176 | the request is offered to this client's queue |
| `Fleet.Client.WriteNext` | internal/client/client.go:88-98 | the writer takes the oldest queued message |
| `Fleet.Client.Close` | internal/client/client.go:127-135 | teardown tells the writer to stop, closes the socket and leaves the pool; a second call changes nothing and the channel is never closed twice |
| `Fleet.Client.WriterTurn` | internal/client/client.go:84-98 | a running writer with something queued takes the oldest message, and writes it or, if the write fails, loses that one, tears the client down and ends; it ends for no other reason than a teardown, and always once that is so and nothing waits |
| `Fleet.ClientPool.AddClient` | internal/client/pool.go:37-47 | admitted exactly below the cap, a cap of zero or less meaning none |
| `Fleet.ClientPool.RemoveClient` | internal/client/pool.go:49-53 | that client, and nobody else, leaves |
| `Fleet.ClientPool.Snapshot` | internal/client/pool.go:72-80 | every member once |
| `Fleet.ClientPool.PickNewClient` | internal/client/pool.go:85-96 | whatever the random draw, a current member |
| `Fleet.ClientPool.BroadcastEncoded` | internal/client/pool.go:119-132 | every member is offered the message exactly once, independently of everybody else's queue |
| `TaskTable.PutLookup` | internal/orchestrator/batch_map.go:25-32 | filing an entry changes that entry only and leaves no inner map empty |
| `TaskTable.DropLookup` | internal/orchestrator/batch_map.go:59-66 | deleting an entry deletes that one only and leaves no inner map empty |
| `TaskTable.MoveLookup` | internal/orchestrator/batch_map.go:40-57 | a handoff moves one entry, with its metadata, and touches no other |
| `TaskTable.NoEntryNoMap` | internal/orchestrator/batch_map.go:53-55 | a table without entries is the empty map |
| `TaskTable.FrameBatchMap.AddFrameBatch` | internal/orchestrator/batch_map.go:25-32 | the entry is filed under (client, task ID) |
| `TaskTable.FrameBatchMap.GetLength` | internal/orchestrator/batch_map.go:34-38 | the number of IDs under which the client has entries; none exactly when it has no entry, which without empty inner maps is when it is not in the table |
| `TaskTable.FrameBatchMap.SwitchRenderTaskExecutor` | internal/orchestrator/batch_map.go:40-57 | panics exactly for the same client; otherwise the entry moves under a freshly drawn ID of the new client, its stored task ID unchanged |
| `TaskTable.FrameBatchMap.DeleteRenderTask` | internal/orchestrator/batch_map.go:59-66 | the entry goes, and an emptied inner map with it |
| `TaskTable.SoundSaves` | internal/orchestrator/batch_map.go:71-89 | over a table whose entries can be stored a save never fails or panics, and reports exactly what it found |
| `TaskTable.FrameBatchMap.SaveRenderResult` | internal/orchestrator/batch_map.go:68-89 | not assigned exactly for an unknown task, duplicate exactly for a completed one, both without any effect; otherwise the frames are stored, the entry completed and the channel closed, with every failure branch |
| `TaskTable.HandleReceivedMessage` | internal/client/client.go:137-154 | a message of a foreign type changes nothing and keeps the connection; an empty one, or an answer of another length than the read limit, ends it without effect; an answer has exactly the effect of the save; over a sound table nothing else ends the connection |
| `Wire.BigEndianRoundTrip` | internal/protocol/protocol.go:43-45 | the four-byte layout and its reader are inverse, both ways |
| `Wire.BrowserIdIsBigEndian` | web/static/donut-worker.js:106-110 | signed JavaScript shifts give the unsigned big-endian bytes for every 32-bit ID |
| `Wire.PutUint32` | internal/protocol/protocol.go:43-45 | four bytes are overwritten, the rest stays |
| `Wire.EncodeRenderTask` | internal/protocol/protocol.go:40-47 | the buffer filled in place is the specified message |
| `Wire.EncodeFrameBroadcast` | internal/protocol/protocol.go:51-56 | the buffer filled in place is the specified message |
| `Wire.EncodeClientCount` | internal/protocol/protocol.go:72-77 | the buffer filled in place is the specified message |
| `Wire.EncodeRenderResult` | internal/protocol/protocol.go:61-67 | the buffer filled in place is the specified answer |
| `Wire.PageReadsWhatServerSends` | web/static/script.js:144-183 | the page reads every server message back as itself |
| `Wire.PageReadsOnlyEncodings` | web/static/script.js:144-183 | whatever the page accepts starts with the encoding of what it read |
| `Wire.PageThrowsExactlyOnShortMessages` | web/static/script.js:144-183 | the page's handler throws exactly on a message too short for its type and passes over exactly the unknown types |
| `Wire.DecodersAgreeWithPage` | internal/protocol/protocol.go:81-116 | the Go decoders and the page agree on every body of the types both know, errors included |
| `Wire.AnswersAreExactlyEncodings` | internal/protocol/render_result.go:16-30 | bytes are accepted as an answer if and only if they are the encoding of that ID and one whole batch; so they have exactly the read limit's length |
| `Codec.NibbleBits` | web/static/script.js:102-104 | the scripts' shifts and masks are quotient and remainder by 16, and joining undoes splitting |
| `Codec.AlphabetRoundTrip` | web/static/donut-worker.js:76-80 | the index table and the 14-glyph alphabet are inverse to each other |
| `Codec.EncodePair` | web/static/donut-worker.js:90-98 | fails exactly on a character outside the alphabet, otherwise the packed byte |
| `Codec.EncodeFrame` | web/static/donut-worker.js:84-100 | the packing loop fails exactly on a frame with a foreign character, otherwise gives the packed frame, an odd end padded with a space |
| `Codec.EncodeFrames` | web/static/donut-worker.js:84-101 | all frames packed one after the other, or failure if any is bad |
| `Codec.DecodePair` | web/static/script.js:102-111 | fails exactly when a nibble is 14 or 15 |
| `Codec.DecodeFrames` | web/static/script.js:97-126 | the loop over one reused character buffer fails exactly when some nibble is 14 or 15, otherwise cuts the unpacked text at 1760 characters |
| `Codec.DecodeInvertsPack` | web/static/script.js:97-126 | the page's decoder gives back exactly the list of frames the worker packed |
| `Codec.UnpackPackPads` | web/static/donut-worker.js:86-98 | for a frame of any length over the alphabet unpacking gives the frame back, followed by a space if its length is odd |
| `Codec.PackInvertsDecode` | web/static/donut-worker.js:83-101 | re-packing the decoded frames of a whole number of frames gives back the bytes |
| `Codec.DecodeDistributes` | web/static/script.js:97-126 | decoding distributes over concatenation at an 880-byte boundary, failures included |
| `Codec.CreateFrames` | web/static/donut-worker.js:67-74 | one rendered frame for each requested number, in order; throws exactly when no array of that length exists |
| `Codec.EncodeRenderResult` | web/static/donut-worker.js:83-112 | the posted message is type, big-endian ID and packed frames, or failure on a bad character |
| `Codec.AnswerReachesServer` | internal/protocol/render_result.go:16-30 | for any 32-bit ID and any 60 frames the answer has the read limit's length and is parsed to the same ID and bytes |
| `Viewer.CircularBuffer.constructor` | web/static/script.js:11-16 | a fresh playback ring is empty |
| `Viewer.CircularBuffer.Push` | web/static/script.js:18-30 | after any number of frames the ring holds exactly the newest 1200 of its old contents followed by the new frames, and its head is tail + count modulo 1200 |
| `Viewer.CircularBuffer.Get` | web/static/script.js:32-38 | the oldest frame leaves, undefined when empty |
| `Viewer.Replay` | web/static/script.js:18-38 | the real ring put through any run of pushes and gets holds, and has played, what the run's specification says |
| `Viewer.PlaybackConserves` | web/static/script.js:18-38 | over any run frames in = played + dropped + buffered, the buffered ones are the newest, and without a drop playback is the arrivals in order |
| `Integrity.WriteFrame` | internal/harness/renderer.go:47-53 | one watermarked frame is written in place, nothing around it changes |
| `Integrity.Render` | internal/harness/renderer.go:36-44 | the synthetic batch is the watermarked frames of the range, in 32-bit arithmetic |
| `Integrity.WatermarkDecides` | internal/harness/renderer.go:55-79 | a frame is watermark j exactly when its first four bytes and every other byte say so |
| `Integrity.VerifyContiguousFrames` | internal/harness/renderer.go:65-82 | accepts if and only if the first n frames are the n synthetic ones; a count of zero or less is accepted outright |
| `Integrity.HonestHistoryPasses` | internal/harness/renderer.go:60-82 | every broadcast history of n frames made by synthetic workers is accepted if and only if n is at most 108000 |
| `Integrity.RepeatIsNoticed` | internal/harness/renderer.go:31-33 | past 108000 frames the frame numbers start over and the check rejects |
| `EndToEnd.HandleRequest` | web/static/donut-worker.js:114-119 | a worker posts the rendering of the requested frames under the requested ID, which the server accepts if and only if the range is one whole batch |
| `EndToEnd.WholeBatchesAreAccepted` | internal/protocol/render_result.go:16-30 | the server takes an answer for a range of frames if and only if there are 60 of them |
| `EndToEnd.WorkerRendersRange` | web/static/donut-worker.js:67-101 | creating and packing the frames of a range is what the pipeline calls rendering that range |
| `EndToEnd.PageTakesBroadcasts` | web/static/script.js:164-183 | only broadcast messages put frames into the playback ring, each its decoded payload, in order |
| `EndToEnd.OnMessage` | web/static/script.js:144-183 | a broadcast that decodes enters the playback ring in one push, a bad nibble adds no frame, and no other message touches the ring |
| `EndToEnd.HandlerAddsPageFrames` | web/static/script.js:164-170 | for every server message, what the handler adds is what the end-to-end theorems count |
| `EndToEnd.OnlyRequestsAreAnswered` | web/static/script.js:149-163 | a browser answers requests for possible ranges and no other message |
| `EndToEnd.ViewerReceivesTheAnimation` | web/static/script.js:164-170 | a connected client that lost no message holds, decoded, exactly the animation from the first broadcast after its admission to the last one it received, which with an empty queue is the last one offered |

## Where code and documentation disagree

- ARCHITECTURE.md:876 says the browser's playback ring has no overrun protection. The code drops the oldest frame when
  full (web/static/script.js:20-25); the model follows the code.
- internal/harness/renderer.go:31-33 assumes runs well under the ring's frame count. `Integrity.HonestHistoryPasses`
  gives the exact limit: 108000 frames.
- internal/orchestrator/orchestrator.go:227 speaks of re-dispatching to a different client; the code draws any member of
  the pool, possibly the same one, which is then asked again under its old ID (lines 244-252). The model follows the code.

## Left out

- Progress.AnotherBroadcastIsReachable: states that some finite schedule exists, not that every fair one gets there; a
  worker that never answers can hold a batch back for ever, as in the source. It needs enough unused task IDs for the
  schedule; past a wrap of a 32-bit ID counter nothing is claimed.
- Runs.HistoryIsNeverRewritten: holds for runs without a 32-bit wrap; past it a (client, task ID) pair can be reused.
- Turns.BroadcastTurn: the turn without interruption; interleavings are in the transition system.
- Fleet.Client.WriterTurn: the ping arm of the writer is not modelled; a failing ping tears the client down like a
  failing write.
- Fleet.Client.WriteNext: takes the message; the socket write after it, deadlines, pings and compression are abstracted
  to "delivered, lost, or the client leaves".
- Fleet.ClientPool.BroadcastEncoded: a failing `NewPreparedMessage` is not modelled, nor is the order in which a map is
  iterated, which stays arbitrary.
- TaskTable.HandleReceivedMessage: the result handler is the orchestrator's; a client built without a handler is not modelled.
- Codec.CreateFrames: the donut trigonometry (web/static/donut-worker.js:11-65) is a parameter, any function from frame
  numbers to frames.
- The endless loops themselves are step relations; their bodies are in `Pipeline` and `Turns`.
- The 64-bit byte counters are natural numbers, and settings are natural numbers of seconds; negative settings, which the
  flags accept, are not modelled.
- Queued messages are typed in the pipeline; their bytes and both parsers are in `Wire`.
- The fresh copy that a read of the ring returns is a sequence value, so its freshness is not a separate statement.
- In the transition system the connection cap is the choice between admitting and rejecting a numbered connection; the
  cap itself is in `Fleet.ClientPool.AddClient`.
- Wall-clock time, timers, sleeps and the exponential pacing delay (internal/buffer/frame_buffer.go:147-161).
- Shutdown and context cancellation.
- Telemetry timing, the fullness percentage, flags, environment, logging.
- The page's draw loop, frame debt, status text and reconnection.
- internal/debug/console.go, which nothing uses.
