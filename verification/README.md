# Verified model of yagna's stateful cores

Yagna is a node of a decentralised marketplace for computing power.  This
project models the parts of it that keep state through long runs and proves what
holds in every run:

- **VM framing** (`Framing`, `FrameStream`): the writer puts a length prefix in
  front of each payload; the poll-driven reader cuts arbitrary chunks back into
  payloads and must arrange its own wake-ups.
- **Relay between the service bus and a WebSocket** (`Relay`): calls are buffered
  or forwarded, and pending callers move between the two handlers as connections
  come and go.  Every await point is a step, so a run is any interleaving.
- **FlexBuffer re-encoding** (`FlexClone`): a recursive copy onto a builder that
  keeps all open containers on one flat stack.
- **ExeUnit supervisor** (`ExeScript`, `BatchLog`, `Output`): the activity's state
  machine, the event log that batch results are read from, the live output stream
  and the bounded output buffers.
- **GFTP** (`Gftp`): tiling a file into chunks, ordered download, upload in any
  order of arrival.
- **Payments** (`PaymentBatch`, `PaymentSync`, `SyncHistory`, `SyncJob`,
  `PostMigration`): batch orders, synchronisation of documents with peers, and the
  post-migration sums.
- **Provider** (`Hardware`, `Interval`): the resource ledger and the interval
  counter.

Code that works step by step is a class or a method with loops; each such method
is tied by its contract to a function on values, and the theorems are about those
functions.  Remote calls, the database, the driver, the runtime, the clock and the
order in which hash maps are iterated are parameters or arbitrary choices, so the
theorems hold for all of them.  Times, amounts and GiB values are exact.

Some properties one would expect do not hold of the code as it is.  For these
there is an exact condition:

- Framing round-trips exactly when every payload's length fits its prefix; a longer
  length is cut by the integer cast (`WireRoundTrip`).  After a failed write the reader
  recovers the payloads written whole exactly when these fit and the torn frame stops
  short of the length it announces (`WriterMeetsReader`).
- A head-and-tail capture reproduces the output exactly when nothing or exactly
  `limit` bytes were written, because both buffers see every byte
  (`HeadTailReproducesStream`).
- An acknowledged sync message clears only the marks of its own documents exactly
  when it drags nothing along (`AckClearsOnlyMessage`).  The comment on
  `mark_accept_sent` (core/payment/src/dao/debit_note.rs:329) says that all previous
  debit notes are marked; the loop stops at the first one already clear.  A note
  settled on acceptance because its amount is zero is never listed, and its mark goes
  with that of its successor (`SettledNoteClearedUntold`).  A payment's mark is
  cleared by id alone.  Over histories in which documents go on changing and being
  marked, the condition is one on the moment: the document being cleared takes nothing
  but what the last message told (`HonestIffContained`); for deliveries that nothing
  disturbs, that the message is closed when it is sent (`DeliveriesHonest`).
- The post-migration pass equals the per-agreement sum exactly when every agreement
  it passes over has nothing to add: the pass groups by agreement id but writes one
  owner's row (`PassEqualsGroupBy`, `TwoOwnersCredited`).
- A profile change over-commits the hardware exactly when the new cap cannot hold
  what is already allocated (`OvercommitCondition`), and every profile that is smaller
  in some component can (`ShrinkingCanOvercommit`, `HalfProfileOvercommits`).
- A forwarded request still has a caller waiting exactly when nothing took its sender
  since it was made; a drop while buffering does, and leaves the request to be
  forwarded (`ForwardFindsCaller`, `ForwardedAfterDrop`).
- A relay flush keeps the order of arrival only if there are no two requests to send
  (`FlushKeepsOrderOnlyOfOne`).
- An upload rebuilds the file exactly when the last chunk arrived and every missing
  chunk holds only zeros (`UploadRebuilds`).

## Model

| member | source | states |
|---|---|---|
| Framing.DecodeEncode | exe-unit/src/network.rs:545-569 | reading a written prefix, in either byte order, gives the length modulo the prefix's range |
| Framing.EncodeDigit | exe-unit/src/network.rs:560-566 | network order starts with the most significant byte, the other order ends with it |
| Framing.FirstLengthAppend | exe-unit/src/network.rs:449-457 | a complete first frame, its payload and what follows it do not depend on later input |
| Framing.FramesAppend | exe-unit/src/network.rs:423-457 | payloads of a concatenation are those of the first part, then those of its leftover with the second part |
| Framing.LeftoverIncomplete | exe-unit/src/network.rs:443-457 | what is left after taking all payloads holds no complete frame |
| Framing.FirstOfFrame | exe-unit/src/network.rs:545-569 | the reader sees the length cut by the prefix's width and by usize, and it is right exactly when the length fits |
| Framing.FrameThenMore | exe-unit/src/network.rs:449-469 | a frame that fits comes back whole in front of the rest; one that does not comes back as something else |
| Framing.WireRoundTrip | exe-unit/src/network.rs:386-469 | a whole conversation is recovered if and only if every payload fits, and then nothing is left over |
| Framing.WriteLoop | exe-unit/src/network.rs:386-404 | the loop writes the frames of all messages before the first error or failed write, plus the torn part of the failed one, and stops for no other reason |
| Framing.WireThenMore | exe-unit/src/network.rs:386-457 | written frames in front of any bytes come back first if they fit; otherwise the payloads are no beginning of what comes back |
| Framing.WriterMeetsReader | exe-unit/src/network.rs:386-457 | however the writer stops, the reader recovers exactly the payloads written whole, if and only if these fit their prefixes and a torn frame stops short of the length it announces |
| Framing.FittingIsTornShort | exe-unit/src/network.rs:391-398 | the torn frame of a payload that fits always stops short |
| Framing.TornFrame | exe-unit/src/network.rs:391-398 | a frame cut short adds no payload if and only if it stops short of the length it announces |
| FrameStream.ChunkingIsIrrelevant | exe-unit/src/network.rs:491-529 | for every cutting into chunks and any read errors between them, the payloads delivered are those of the concatenated bytes |
| FrameStream.FaultsPassThrough | exe-unit/src/network.rs:524-524 | every read error is delivered, once and in order |
| FrameStream.RoundTrip | exe-unit/src/network.rs:386-529 | over every chunking the payloads come back in order if and only if each fits its prefix |
| FrameStream.RxBuffer.TakeNext | exe-unit/src/network.rs:449-457 | takes exactly the first complete payload out of the buffer, or changes nothing when there is none |
| FrameStream.RxBuffer.Process | exe-unit/src/network.rs:423-430 | the same after appending a chunk |
| FrameStream.Peekable.PollInner | exe-unit/src/network.rs:471-489 | one poll of the inner stream: an item leaves it, or it is pending and keeps the waker, or it has ended; it keeps the waker exactly if it answered Pending last |
| FrameStream.Peekable.PollNext | exe-unit/src/network.rs:506-506 | the look-ahead item comes first; no item is lost or repeated |
| FrameStream.Peekable.PollPeek | exe-unit/src/network.rs:509-512 | looking ahead keeps all items, and is ready exactly if the inner stream does not keep the waker |
| FrameStream.RxBufferStream.constructor | exe-unit/src/network.rs:479-489 | a new stream has everything to deliver that the inner stream holds |
| FrameStream.RxBufferStream.PollNext | exe-unit/src/network.rs:498-528 | nothing lost, duplicated, reordered or invented; Pending only if the reader woke itself or the inner stream answered Pending last; a buffered frame does not wait for input; no wake for nothing; every poll before the end makes progress |
| FrameStream.Drive | exe-unit/src/network.rs:498-528 | re-polling only on its own wakes and on those of an inner stream that answered Pending still delivers everything, and terminates |
| FrameStream.Receive | exe-unit/src/network.rs:386-529 | end to end, for every schedule of the inner stream: the payloads sent, in order, and every read error |
| Output.LimitsKeep | exe-unit/src/output.rs:142-164 | turning a zero limit into a discarding buffer changes nothing of what is kept |
| Output.AcceptedExtendsKept | exe-unit/src/output.rs:175-197 | a buffer that appends what it accepts holds exactly what it should keep |
| Output.AcceptedIsHeld | exe-unit/src/output.rs:175-221 | a write reports exactly the part of it that the buffer then holds at its end, and something if and only if there is room |
| Output.CaptureBuffer.Write | exe-unit/src/output.rs:175-221 | after any write the buffer holds all, the first `limit` or the last `limit` bytes of everything ever written; all indices are in range; the returned slice is the accepted part |
| Output.RotateIn | exe-unit/src/output.rs:198-216 | rotating, growing and copying in place keeps the newest old bytes that fit, followed by the new ones |
| Output.RingHoldsLast | exe-unit/src/output.rs:198-216 | overwriting the oldest bytes with the newest keeps the last `limit` of all bytes |
| Output.CaptureContract | exe-unit/src/output.rs:88-131 | each capture mode stores what it promises: all, first, last, or the two halves of the limit |
| Output.OutputAsAsked | exe-unit/src/output.rs:52-131 | the output is what was promised, in the format asked for or as text, and nothing if that is empty |
| Output.ReportedPart | exe-unit/src/output.rs:75-85 | a write to both buffers reports the head's part as long as the head has room, then the tail's |
| Output.ChunkAsAsked | exe-unit/src/output.rs:75-85 | reported chunks are in the format asked for |
| Output.PromiseWithinLimit | exe-unit/src/output.rs:88-131 | what is stored never exceeds the limit; exactly the stream modes are streamed |
| Output.HeadTailReproducesStream | exe-unit/src/output.rs:75-112 | a head-and-tail capture equals the stream if and only if nothing or exactly `limit` bytes were written |
| Output.ReportsAddUp | exe-unit/src/output.rs:75-85 | the chunks reported by writes add up to what is stored, where there is no tail buffer |
| Output.CapturedOutput.constructor | exe-unit/src/output.rs:88-131 | a mode's settings with nothing written |
| Output.CapturedOutput.Write | exe-unit/src/output.rs:75-85 | both buffers take every byte; the head's slice is reported, else the tail's |
| Output.CapturedOutput.Output | exe-unit/src/output.rs:52-66 | head then tail, or nothing when both are empty |
| BatchLog.LiveBatch.State | exe-unit/src/state.rs:224-242 | fills in fresh states up to the index and keeps the others; fails outside the script |
| BatchLog.LiveBatch.OnFinished | exe-unit/src/state.rs:133-146 | a finished event records result and message of its own command only |
| BatchLog.LiveBatch.OnWrote | exe-unit/src/state.rs:147-166 | a write is captured on its own channel and yields the chunk for the stream, if the channel streams |
| BatchLog.LiveBatch.Absorb | exe-unit/src/state.rs:126-179 | every kind of event, and the refusal of unknown indices |
| BatchLog.LiveBatch.HandleEvent | exe-unit/src/state.rs:126-179 | the results are the replay of everything handled, a subscriber is sent what each event emits, and unknown indices and a stream without receivers are errors |
| BatchLog.ReplayGrows | exe-unit/src/state.rs:113-145 | over any events, also with indices out of range: results stay within the script, finished commands stay finished, the done count never falls |
| BatchLog.ApplyToChannel | exe-unit/src/state.rs:147-166 | an event changes the capture it writes to and no other |
| BatchLog.CaptureTracksWrites | exe-unit/src/state.rs:126-179 | under any interleaving a capture has seen exactly the writes to its own command and channel |
| BatchLog.StreamTracksWrites | exe-unit/src/state.rs:147-179 | the stream carries exactly the chunks the capture reports |
| BatchLog.StoredAsPromised | exe-unit/src/state.rs:334-347 | what is stored is what the capture setting promises of the bytes written |
| BatchLog.FreshAsAsked | exe-unit/src/state.rs:224-242 | a Run command streams and formats as its capture asks, every other command streams all as text |
| BatchLog.StreamEqualsStored | exe-unit/src/state.rs:126-179 | for a subscriber from the start, the chunks of one command and channel concatenate to the stored output |
| BatchLog.Watch | exe-unit/src/state.rs:126-179 | a batch subscribed to from its first event has sent exactly what its events emit, and with it the stored output of every streaming channel |
| BatchLog.EventsPassThrough | exe-unit/src/state.rs:126-179 | a subscriber sees every start and end of a command and all progress, once and in order |
| BatchLog.ChunksAsAsked | exe-unit/src/state.rs:147-166 | chunks come only from streaming channels and in the format asked for |
| BatchLog.OthersStreamNothing | exe-unit/src/state.rs:147-166 | channels that do not stream send nothing |
| BatchLog.ResultsUpTo | exe-unit/src/state.rs:201-221 | asking up to one command gives a prefix of all results, with the output of that command only, and that command's result always says that the batch is finished |
| BatchLog.MakeReport | exe-unit/src/state.rs:78-91 | done and pending add up to all batches and all commands, done is exact, nothing underflows |
| BatchLog.ReportAnyEvents | exe-unit/src/state.rs:73-91 | the same for any batches after any events, also with indices out of range |
| ExeScript.CommandKeepsLifecycle | exe-unit/src/exe_unit.rs:199-290 | the state check lets a command through if and only if the lifecycle allows it next; no pending state survives, failed or not |
| ExeScript.CheckFindsMoves | exe-unit/src/exe_unit.rs:234-258 | in any state a command is let through if and only if it is a move of the activity and none is pending |
| ExeScript.CommandSays | exe-unit/src/exe_unit.rs:172-197 | a command's code and message are those of the world if the lifecycle allows it, and otherwise -1 with a message |
| ExeScript.RefusedChangesNothing | exe-unit/src/exe_unit.rs:235-258 | in any state a refused command has code -1, says why and leaves the state |
| ExeScript.TerminateResets | exe-unit/src/exe_unit.rs:218-223 | from any state a Terminate that succeeds leads to Initialized, and a failed one says so |
| ExeScript.DisturbedFails | exe-unit/src/exe_unit.rs:279-286 | a state changed by someone else meanwhile is an error and is left as it is |
| ExeScript.LifecycleOverRuns | exe-unit/src/exe_unit.rs:199-290 | over any commands and outcomes the commands let through since the last successful Terminate are Deploy, Start, then Run and Transfer, or a prefix of that |
| ExeScript.OrderlyReplay | exe-unit/src/state.rs:126-145 | replaying contiguous Started and Finished events yields exactly the executed commands with their results; only the last can have failed |
| ExeScript.OrderlyPrefix | exe-unit/src/exe_unit.rs:145-197 | a prefix of an orderly log is orderly, so the results hold at every moment |
| ExeScript.TraceSays | exe-unit/src/exe_unit.rs:145-197 | what a whole run reports is what the lifecycle and the world make of its commands |
| ExeScript.RunningCommandIsOpen | exe-unit/src/state.rs:183-199 | the running command is command i exactly between Started(i) and Finished(i) |
| ExeScript.ResultsOfBatch | exe-unit/src/state.rs:201-221 | at every moment, also while a command runs: one result per finished command, in order; only the last can be an error or say that the batch is finished, which it does if and only if the script ran out or failed |
| ExeScript.ResultsCarryOutput | exe-unit/src/state.rs:201-221 | at every moment each result carries what its command was promised of its own writes so far, in the format asked for |
| ExeScript.Supervisor.constructor | exe-unit/src/exe_unit.rs:228-258 | starts Initialized with nothing dispatched |
| ExeScript.Supervisor.ExecStateless | exe-unit/src/exe_unit.rs:199-226 | Sign and Terminate, successful or failed: result, state and dispatched commands |
| ExeScript.Supervisor.ExecStateful | exe-unit/src/exe_unit.rs:228-290 | refuses, or passes through the pending state to the target; a state changed by someone else is an error and is left alone |
| ExeScript.Supervisor.ExecCommand | exe-unit/src/exe_unit.rs:160-190 | one command between its Started and Finished events, with return code and message of its result |
| ExeScript.Supervisor.Exec | exe-unit/src/exe_unit.rs:145-197 | the log is orderly and stops at the end, the first failure or a stop request, and at nothing else; every code and message follows from the lifecycle and the world: 0 if and only if the command is allowed next and nothing failed |
| ExeScript.RunBatches | exe-unit/src/exe_unit.rs:145-290 | batches run one after another each do so from where the last one ended, and keep the lifecycle |
| Relay.StepKeepsCallers | core/gsb-api/src/service.rs:100-394 | every step keeps: each call is answered or has its own sender pending, and an answer carries the call's own id |
| Relay.StepIsFinal | core/gsb-api/src/service.rs:100-394 | no step takes back a call, its request, its answer or its outcome |
| Relay.ResponseReachesItsCall | core/gsb-api/src/service.rs:370-385 | a response reaches the pending call with its id, in relaying mode only, and changes no other call |
| Relay.DropAnswersEveryone | core/gsb-api/src/service.rs:219-231 | after a drop every earlier call has an answer and nobody is pending; only pending calls changed |
| Relay.SwitchKeepsPending | core/gsb-api/src/service.rs:165-195 | switching modes hands over the pending callers unchanged |
| Relay.StepKeepsRequests | core/gsb-api/src/service.rs:233-368 | every step keeps: a request is in exactly as many places as it was made |
| Relay.RunKeeps | core/gsb-api/src/service.rs:100-394 | both invariants and finality over every run |
| Relay.ForwardedOnce | core/gsb-api/src/service.rs:233-259 | no request is forwarded twice, and only requests that were made |
| Relay.SafetyOverRuns | core/gsb-api/src/service.rs:100-394 | from the start, over every interleaving: no caller lost or answered twice or with another's response, no request lost, altered or forwarded twice |
| Relay.PendingUntilTaken | core/gsb-api/src/service.rs:219-394 | over every run a call stays pending until a drop, a response or a failed flush takes its sender, and never becomes pending again |
| Relay.ForwardFindsCaller | core/gsb-api/src/service.rs:233-259 | when a request is forwarded its caller still waits if and only if nothing took its sender since it was made |
| Relay.ForwardedAfterDrop | core/gsb-api/src/service.rs:319-321 | a request dropped while buffered is still forwarded by the next flush |
| Relay.StepOfCaller | core/gsb-api/src/service.rs:100-146 | what every step does to every caller: how far it gets, and what is put into its slot |
| Relay.NewCaller | core/gsb-api/src/service.rs:297-368 | a new call waits, or is on its way to the WebSocket connected now |
| Relay.CallerGetsAnswer | core/gsb-api/src/service.rs:123-144 | over every run a caller goes away empty if and only if its own send failed; one that received goes away with its answer, which a response with its id, a drop or a failed flush put there |
| Relay.ForwardsGoTo | core/gsb-api/src/service.rs:233-368 | a call is sent to the WebSocket connected when it was made, a flush to the one that started it, and nothing else forwards |
| Relay.FlushReverses | core/gsb-api/src/service.rs:238-238 | a flush sends the buffered requests last to first |
| Relay.FlushKeepsOrderOnlyOfOne | core/gsb-api/src/service.rs:238-238 | it keeps their order if and only if there are no two of them |
| Relay.DrainSenders | core/gsb-api/src/service.rs:219-231 | draining in any order tells every pending caller the reason, with its own id |
| Relay.Service.constructor | core/gsb-api/src/service.rs:49-64 | a service starts buffering with nothing pending |
| Relay.Service.HandleCall | core/gsb-api/src/service.rs:100-146 | refuses unknown addresses; otherwise the step for a new call |
| Relay.Service.HandleWsResponse | core/gsb-api/src/service.rs:148-156 | the step for a response; it says whether a caller took it |
| Relay.Service.HandleDropMessages | core/gsb-api/src/service.rs:80-98 | the step for a drop; it returns the WebSocket to disconnect |
| Relay.Service.HandleStartRelaying | core/gsb-api/src/service.rs:165-178 | the step to relaying, with a flush of what was buffered |
| Relay.Service.HandleStartBuffering | core/gsb-api/src/service.rs:184-196 | the step to buffering; it returns the WebSocket that was connected |
| Relay.Service.SendLast | core/gsb-api/src/service.rs:238-241 | one turn of the flush forwards the last buffered request |
| Relay.Service.ReportFailure | core/gsb-api/src/service.rs:242-256 | a failed send is reported as an error response for that request |
| Relay.Service.SendPendingRequests | core/gsb-api/src/service.rs:233-259 | the flush loop forwards every buffered request exactly once |
| FlexClone.CopyKeepsMeaning | core/gsb-api/src/lib.rs:423-506 | the copy denotes the same value at every depth, for typed vectors, indirect numbers and keys |
| FlexClone.CopyIsPlain | core/gsb-api/src/lib.rs:469-506 | the copy is in the builder's normal form |
| FlexClone.ReadableIffWellFormed | core/gsb-api/src/lib.rs:423-506 | exactly the well-formed values can be copied: nothing damaged where it is read, elements of typed vectors of their kind, at every depth |
| FlexClone.Builder.Push | core/gsb-api/src/lib.rs:321-368 | adds its key and one completed value |
| FlexClone.Builder.Start | core/gsb-api/src/lib.rs:335-341 | an opened container owns the cells from here on |
| FlexClone.Builder.End | core/gsb-api/src/lib.rs:343-368 | closing replaces the container's cells by one value |
| FlexClone.PushValue | core/gsb-api/src/lib.rs:469-506 | succeeds if and only if the value can be read; then adds exactly the copy; never touches the open containers below |
| FlexClone.CloneMap | core/gsb-api/src/lib.rs:423-436 | the same for maps |
| FlexClone.CopyFields | core/gsb-api/src/lib.rs:423-436 | the loop pushes every field under its key, in order |
| FlexClone.CloneVec | core/gsb-api/src/lib.rs:453-467 | the same for vectors, typed or not |
| FlexClone.CopyItems | core/gsb-api/src/lib.rs:453-467 | the loop pushes every element, in order |
| FlexClone.CloneField | core/gsb-api/src/lib.rs:411-421 | the message sent back is a map whose only field denotes the payload; it fails if and only if the payload is not well-formed |
| Gftp.WriteAtBytes | core/gftp/src/gftp.rs:204-218 | what is where after a seek and a write |
| Gftp.ReadChunk | core/gftp/src/gftp.rs:304-315 | a read from where the last chunk ended gives the chunk at its computed offset |
| Gftp.GetChunks | core/gftp/src/gftp.rs:293-317 | sequential reads give the chunk at every computed offset |
| Gftp.ChunksTile | core/gftp/src/gftp.rs:293-317 | the chunks tile the file: nothing missing, nothing twice |
| Gftp.GetChunk | core/gftp/src/gftp.rs:66-98 | seek and read on the shared file, with the wrapping subtraction of 64-bit integers |
| Gftp.ServesWhatIsThere | core/gftp/src/gftp.rs:66-98 | any request gets what there is from its offset on, up to its size; past the end only a request for nothing is answered |
| Gftp.ServeChunk | core/gftp/src/gftp.rs:66-98 | a request for a chunk of the file is answered with that chunk |
| Gftp.Request | core/gftp/src/gftp.rs:147-154 | the next request is for an offset inside the file, and at most twelve are in flight |
| Gftp.AnswerAny | core/gftp/src/gftp.rs:66-98 | whichever pending request the publisher serves, it is answered with its own chunk |
| Gftp.WriteAnswer | core/gftp/src/gftp.rs:156-162 | the next answer in order extends what was already written |
| Gftp.Download | core/gftp/src/gftp.rs:131-166 | with twelve requests in flight, answered in any order: succeeds if and only if no request is lost, and then the target is the source; every request starts inside the file |
| Gftp.ChunkUploaded | core/gftp/src/gftp.rs:197-219 | one arriving chunk is written at its offset |
| Gftp.Upload | core/gftp/src/gftp.rs:258-275 | the chunks of the file, arriving in any order and with repeats, leave the receiver with what their writes make; with the file itself once all have arrived |
| Gftp.ArrivalsReflected | core/gftp/src/gftp.rs:197-219 | for any arrivals the file reaches to the furthest chunk, what arrived is right and the rest is zero |
| Gftp.UploadRebuilds | core/gftp/src/gftp.rs:197-219 | in any order and with repeats: the file is rebuilt if and only if the last chunk arrived and missing chunks are zero |
| Gftp.UploadOfAllChunks | core/gftp/src/gftp.rs:258-291 | in particular when every chunk arrived |
| PaymentBatch.PaidBySources | core/payment/src/batch.rs:31-182 | the payments to a destination add up to the items of the sources they are made for |
| PaymentBatch.MoneyConserved | core/payment/src/batch.rs:107-182 | per payer, payee and platform the payments of a finished run add up to the unsent items |
| PaymentBatch.PaidExactlyOnce | core/payment/src/batch.rs:107-182 | each item is in exactly one payment |
| PaymentBatch.PaidWhereDue | core/payment/src/batch.rs:48-56 | each item is paid from its payer to its payee on its platform, out of its deposit |
| PaymentBatch.PaidTogether | core/payment/src/batch.rs:123-141 | two items share a payment if and only if neither has a deposit and they agree in order, platform, owner, payer and payee |
| PaymentBatch.NextPayment | core/payment/src/batch.rs:57-78 | a payment for a new source keeps the journal and takes no mark from earlier payments |
| PaymentBatch.GroupPaymentProper | core/payment/src/batch.rs:145-163 | a group's payment is the sum of its items, to where they are due |
| PaymentBatch.DepositPaymentProper | core/payment/src/batch.rs:40-60 | a deposit item's payment is its own amount and deposit |
| PaymentBatch.ItemStore.ItemSend | core/payment/src/dao/batch.rs:912-933 | sets the payment id of one item |
| PaymentBatch.MarkItems | core/payment/src/batch.rs:162-181 | marks only these items with this payment, and all of them unless the database refuses one |
| PaymentBatch.SendDeposit | core/payment/src/batch.rs:40-79 | one deposit item: scheduled first, marked afterwards |
| PaymentBatch.SendDepositPayments | core/payment/src/batch.rs:31-81 | every deposit item has its payment, or the run broke off for a reason; every mark belongs to a payment already scheduled |
| PaymentBatch.GroupItems | core/payment/src/batch.rs:123-141 | the groups and the deposit items partition the items |
| PaymentBatch.SumAmounts | core/payment/src/batch.rs:147-150 | the group's amount is the sum of its items |
| PaymentBatch.SendGroup | core/payment/src/batch.rs:145-182 | one group: scheduled first, marked afterwards, nothing else changed |
| PaymentBatch.SendBatchPayments | core/payment/src/batch.rs:83-187 | for any order of the groups: on success everything is paid and marked, and no deposit was unreadable; whenever it breaks off, every marked item is covered by a payment the driver scheduled, and there is a reason |
| PaymentBatch.ListedAreUnsent | core/payment/src/dao/batch.rs:805-849 | of the order's items that join, exactly those neither paid nor in a payment are listed, with their amount, payer, platform and deposit |
| PaymentBatch.RetryTakesUnmarked | core/payment/src/dao/batch.rs:805-849 | after any run exactly the unmarked items are listed again |
| PaymentBatch.NothingLeft | core/payment/src/dao/batch.rs:805-849 | after a finished run nothing is listed, so a second run pays nothing |
| PaymentSync.InItsMessageOnly | core/payment/src/payment_sync.rs:33-125 | a marked document with something to tell is in one message, its owner's to its peer, and in no other; any other document is in none |
| PaymentSync.ClearStaysInside | core/payment/src/payment_sync.rs:127-177 | clearing the marks of documents that drag nothing else along clears no others |
| PaymentSync.ClearDrags | core/payment/src/dao/debit_note.rs:332-369 | whatever a document drags along is cleared with it |
| PaymentSync.AckClearsOnlyMessage | core/payment/src/payment_sync.rs:127-177 | an acknowledged message clears only its own marks if and only if it drags nothing along |
| PaymentSync.AckClearsMessage | core/payment/src/dao/payment.rs:186-195 | an acknowledged document keeps its mark if and only if it is a payment not made as requestor |
| PaymentSync.SettledNoteClearedUntold | core/payment/src/dao/debit_note.rs:284-316 | a settled note's mark goes although no message lists it |
| SyncHistory.ClearTakes | core/payment/src/dao/debit_note.rs:332-369 | clearing a document takes exactly the marks of payments under its id, or of the notes that marked notes lead to |
| SyncHistory.HonestIffContained | core/payment/src/payment_sync.rs:127-177 | a step takes only marks of documents just told if and only if what the document takes was in that message, whatever changed since it was built |
| SyncHistory.MarksGoOnlyAfterAck | core/payment/src/payment_sync.rs:179-245 | in every history, with documents changing and being marked at any point, a contained step takes a mark only after the last message, with that document in it, was acknowledged |
| SyncHistory.OtherwiseMarksGoUntold | core/payment/src/payment_sync.rs:127-177 | at every other step some mark goes whose document the last acknowledged message did not have |
| SyncHistory.DeliveryHonest | core/payment/src/payment_sync.rs:201-238 | a delivery takes only its own marks if its message is closed when sent, and only then if it completes |
| SyncHistory.DeliveriesHonest | core/payment/src/payment_sync.rs:127-245 | deliveries with marks set and documents changed between them: no mark goes untold if every acknowledged message is closed when sent, and only then where the database does not fail |
| SyncHistory.MarkingReopens | core/payment/src/dao/debit_note.rs:287-316 | marks that are closed at the start are not after the next note is accepted |
| SyncHistory.JobIsHistory | core/payment/src/payment_sync.rs:179-293 | the messages of a job are such a history, with the same marks at its end |
| SyncJob.BackoffGrows | core/payment/src/payment_sync.rs:253-261 | waiting never gets shorter and never exceeds the cap |
| SyncJob.BackoffOfWhole | core/payment/src/payment_sync.rs:253-261 | with a whole exponent: the initial delay times its power, up to 32 bits and the cap |
| SyncJob.DueExactly | core/payment/src/payment_sync.rs:262-270 | a peer is due if and only if it has waited long enough and was not tried too often |
| SyncJob.NextSleep | core/payment/src/payment_sync.rs:279-290 | the sleep ends at a queued deadline and no queued deadline falls inside it; none if all lie behind |
| SyncJob.BuildSync | core/payment/src/payment_sync.rs:33-125 | both variants carry the same documents, those are the message, and only payments of the second are signed over canonical bytes; it succeeds if and only if the documents can be listed and every payment signed |
| SyncJob.SyncDb.MarkNoteSent | core/payment/src/dao/debit_note.rs:332-369 | the walk along previous notes clears what the recursive definition says |
| SyncJob.SyncDb.MarkAllSent | core/payment/src/payment_sync.rs:127-177 | clears the message's marks one document after the other, up to a database failure |
| SyncJob.SyncDb.SyncOwner | core/payment/src/payment_sync.rs:201-238 | the original message goes out if and only if the canonical one had no endpoint, with the same documents; marks go only if the last message sent was acknowledged; it fails only where listing, signing or the database does |
| SyncJob.SyncDb.SyncIdentity | core/payment/src/payment_sync.rs:194-238 | one identity's turn: an acknowledgement leaves the entry alone, any other end leaves the marks and counts one more retry, unless the database fails |
| SyncJob.OwnersAreUnlocked | core/payment/src/payment_sync.rs:194-199 | a message goes out for an identity if and only if it is not locked |
| SyncJob.SyncDb.SyncPeer | core/payment/src/payment_sync.rs:179-245 | one message per unlocked identity, in order; the entry leaves the queue if and only if all were acknowledged, and counts every refusal; it breaks off only where listing, signing or the database fails |
| SyncJob.SyncDb.SendSyncNotifs | core/payment/src/payment_sync.rs:247-293 | every peer that is due gets its whole round and no other entry is touched; an entry goes only when everyone's message was acknowledged; the sleep is the one to the next deadline; it fails only where a round or reading the queue does |
| PostMigration.SortedIsGrouped | core/payment/src/post_migrations.rs:70-84 | rows ordered by agreement id form one run per id |
| PostMigration.ScanRow | core/payment/src/post_migrations.rs:91-127 | one row: the group goes on, or its total is written and the sum starts over |
| PostMigration.Scan | core/payment/src/post_migrations.rs:85-129 | the loop's table and the agreements its updates change are those of the ends of runs; every update finds its row |
| PostMigration.PassWrites | core/payment/src/post_migrations.rs:85-129 | every agreement that ends a group gets its old total plus the sum of the whole group; all others are untouched |
| PostMigration.RunningIsSum | core/payment/src/post_migrations.rs:95-98 | the sum carried into a row is that of the earlier rows with its id |
| PostMigration.WrittenOnce | core/payment/src/post_migrations.rs:99-120 | no agreement is written twice, nor two agreements of one id |
| PostMigration.OneOwnerWrites | core/payment/src/post_migrations.rs:85-129 | with one owner per id, the agreements written are exactly those with activities, each once |
| PostMigration.PassEqualsGroupBy | core/payment/src/post_migrations.rs:54-129 | the pass equals the sum per agreement if and only if the agreements it passes over have nothing to add |
| PostMigration.OneOwnerPass | core/payment/src/post_migrations.rs:85-129 | with one owner per id: old total plus own activities for every joined agreement, nothing else changed |
| PostMigration.UnreadableIsNothing | core/payment/src/post_migrations.rs:95-106 | unreadable amounts count as nothing, in a total and in an activity |
| PostMigration.TwoOwnersCredited | core/payment/src/post_migrations.rs:99-120 | a node that is requestor and provider of one agreement, for which the sums are wrong |
| PostMigration.ProcessJobs | core/payment/src/post_migrations.rs:54-148 | runs the pass once and marks the job done |
| PostMigration.ProcessTwice | core/payment/src/post_migrations.rs:54-148 | corollary of the done flag: running the job again changes nothing |
| Hardware.LessMeansNotCovering | agent/provider/src/hardware.rs:154-176 | the order answers Less exactly where one component is smaller |
| Hardware.CapIsCap | agent/provider/src/hardware.rs:142-151 | each component is the smaller of what is wanted and what there is where both reach the minimum, else the minimum |
| Hardware.CapBounds | agent/provider/src/hardware.rs:142-151 | capping stays between the minimum and the limit, and is idempotent |
| Hardware.StepKeepsBalance | agent/provider/src/hardware.rs:341-449 | every step keeps: remaining plus all allocations is the cap |
| Hardware.BalanceOverRuns | agent/provider/src/hardware.rs:341-449 | the same in every reachable state |
| Hardware.FreshIsBalanced | agent/provider/src/hardware.rs:371-381 | a fresh manager is balanced |
| Hardware.GrantLeavesSolvent | agent/provider/src/hardware.rs:428-439 | a request is granted if and only if the id is new and every component suffices, and then nothing is negative |
| Hardware.ReleaseUndoesGrant | agent/provider/src/hardware.rs:428-449 | releasing what was granted restores the ledger |
| Hardware.StepStaysSolvent | agent/provider/src/hardware.rs:341-449 | no step that keeps the cap makes anything negative |
| Hardware.OnlyShrinkingOvercommits | agent/provider/src/hardware.rs:341-449 | over any run only a shrinking profile can over-commit |
| Hardware.OvercommitCondition | agent/provider/src/hardware.rs:346-367 | a profile over-commits if and only if it cannot hold what is allocated |
| Hardware.ShrinkingCanOvercommit | agent/provider/src/hardware.rs:346-439 | for every profile smaller in some component there is a reachable ledger in which it has over-committed |
| Hardware.HalfProfileOvercommits | agent/provider/src/hardware.rs:346-439 | an instance with numbers |
| Hardware.CapFollowsOverRuns | agent/provider/src/hardware.rs:246-367 | in every state of a run the active profile is defined and the cap is its own |
| Hardware.ReachableKeeps | agent/provider/src/hardware.rs:371-449 | whatever a loaded manager is asked to do, it is balanced and its cap follows its profile |
| Hardware.ProfileRoundTrip | agent/provider/src/hardware.rs:346-367 | in every reachable state, switching to another profile and back restores the ledger |
| Hardware.Manager.constructor | agent/provider/src/hardware.rs:371-390 | the first profile is activated, the ledger balanced and the cap the profile's |
| Hardware.Manager.Change | agent/provider/src/hardware.rs:346-367 | the step for a profile change, its refusal and whether the cap moved |
| Hardware.Manager.Reload | agent/provider/src/hardware.rs:392-413 | the step for a changed profiles file; one that does not define its active profile is refused |
| Hardware.Manager.AllocateFor | agent/provider/src/hardware.rs:428-440 | the step for a request and its two refusals |
| Hardware.Manager.ReleaseFor | agent/provider/src/hardware.rs:442-450 | the step for a release and its refusal |
| Interval.ClosedForm | agent/provider/src/interval.rs:22-39 | the first boundary due is max(iteration + 1, ceil((now - base) / interval)), and no other |
| Interval.NextIsDue | agent/provider/src/interval.rs:22-39 | the boundary is not in the past, less than one interval ahead after a skip, and at least one interval after the last |
| Interval.RelativeInterval.Advance | agent/provider/src/interval.rs:22-39 | the search loop finds the closed form, or fails without change when it exceeds the 32-bit counter |
| Interval.BoundariesIncrease | agent/provider/src/interval.rs:22-43 | whatever the clock does, the boundaries handed out are at least one interval apart |

## Left out

- FrameStream.RxBuffer.TakeNext: does not model the overflow of `prefix_size + n` in `usize`, which a prefix of eight or sixteen bytes can announce; no payload in memory is that long.
- FrameStream.Receive: says nothing of bytes of an incomplete frame when the inner stream ends; the code drops them too.
- Framing.WriteLoop: a failed write leaves a proper part of the frame; how the socket batches its bytes is not modelled.
- ExeScript.Supervisor.Exec: batches run one after another; concurrent ones read and set the state in separate messages, which is modelled only as a state change by someone else during a command.
- ExeScript.Supervisor.ExecStateless: what Terminate's stop request does to other batches and to the runtime is not modelled.
- BatchLog.LiveBatch.HandleEvent: lagging receivers of the broadcast channel, the notifier and dates are not modelled.
- BatchLog.ResultsUpTo: the results of an empty script are not defined, as the code subtracts one from its length.
- Output.CapturedOutput.Output: decoding to text is left to the caller, so lossy UTF-8 is not modelled.
- Relay.SafetyOverRuns: message ids are fresh, as they are random UUIDs; that every call is eventually answered is not claimed, since a buffering service refuses responses.
- Relay.Service.SendPendingRequests: states the loop without other steps in between; interleavings are covered by the step lemmas.
- FlexClone.CloneField: the byte layout of FlexBuffers, the builder's sorting of keys and the decisions of `read_ws_response` are not modelled; of equal keys a lookup finds the first.
- Gftp.Download: a failed metadata request, the hash comparison and file errors are not modelled, and the sum of offset and chunk size is not cut to 64 bits.
- Gftp.GetChunks: files do not change while they are read.
- PaymentBatch.SendBatchPayments: the order lock and a crash between scheduling and marking are not modelled; what is not marked is paid again on a retry, as `RetryTakesUnmarked` says.
- SyncJob.SyncDb.SendSyncNotifs: overflow of durations and rounding of the power are not modelled; documents do not change during the job, as they may in the histories of `SyncHistory`; locked identities are skipped, so a dropped entry does not mean that nothing is unsent.
- SyncJob.BuildSync: the order of documents inside a message is left open.
- PostMigration.Scan: decimal text is a number or unreadable; how many digits it keeps is not modelled.
- Hardware.BalanceOverRuns: f64 rounding and overflow of thread counts are not modelled.
- Interval.RelativeInterval.Advance: called at the counter's maximum the code overflows; overflow of dates is not modelled.
- Actix mailboxes, sockets, the service bus transport, Diesel, HTTP and the command line are replaced by steps, byte sequences and maps.
- Requests for synchronisation (`send_sync_requests`), notifications, access lists, batch cycles, settings, hashing and signatures are not modelled.
